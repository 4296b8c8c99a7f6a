/** The KML document builders of src/kml.js. A document is specified as a
    sequence of lines, each an indentation and a text; the builders append
    `indentStr(text + "\r\n", lineIndent)` for each line while they move
    `lineIndent` up and down, and are proved to produce the rendering of
    the specified lines. */
module Kml {
  import opened Js
  import Bearing

  const LineEnding: string := "\r\n"
  const IndentStep: int := 4
  const XmlDeclaration: string := "<?xml version=\"1.0\" encoding=\"UTF-8\"?>"
  const KmlOpen: string := "<kml xmlns=\"http://www.opengis.net/kml/2.2\">"
  const IconBase: string := "http://earth.google.com/images/kml-icons/track-directional/"
  const NormalStyleUrl: string := "#normalPlacemark"

  function Max0(n: int): nat {
    if n > 0 then n else 0
  }

  /** `n` spaces; none when `n` is zero or negative. */
  function Spaces(n: int): string {
    seq(Max0(n), _ => ' ')
  }

  /** What indentStr returns. */
  function Indented(str: string, indent: int): string {
    Spaces(indent) + str
  }

  /** indentStr(str, indent) is `max(indent, 0)` spaces followed by `str`;
      for an indent of zero or less it is `str` itself. */
  lemma IndentedShape(str: string, indent: int)
    ensures |Indented(str, indent)| == Max0(indent) + |str|
    ensures forall i :: 0 <= i < Max0(indent) ==> Indented(str, indent)[i] == ' '
    ensures Indented(str, indent)[Max0(indent)..] == str
    ensures indent <= 0 ==> Indented(str, indent) == str
  {
  }

  /** indentStr: pads `str` with `indent` spaces, one per loop step. */
  method IndentStr(str: string, indent: int) returns (result: string)
    ensures result == Indented(str, indent)
  {
    var index := 0;
    result := "";
    while index < indent
      invariant 0 <= index && (index <= indent || index == 0)
      invariant result == Spaces(index)
      decreases indent - index
    {
      result := result + " ";
      index := index + 1;
    }
    result := result + str;
  }

  /** One line of output: its indentation and its text without the line ending. */
  datatype Line = Line(indent: int, text: string)

  /** The text one `data += indentStr(text + lineEnding, lineIndent)` appends. */
  function RenderLine(l: Line): string {
    Indented(l.text + LineEnding, l.indent)
  }

  /** A rendered line is its spaces, its text, then "\r\n". */
  lemma RenderLineShape(l: Line)
    ensures var r := RenderLine(l);
      |r| == Max0(l.indent) + |l.text| + 2 &&
      (forall i :: 0 <= i < Max0(l.indent) ==> r[i] == ' ') &&
      r[Max0(l.indent)..|r| - 2] == l.text &&
      r[|r| - 2..] == LineEnding
  {
    var r := RenderLine(l);
    IndentedShape(l.text + LineEnding, l.indent);
    assert r[Max0(l.indent)..][..|l.text|] == l.text;
    assert r[Max0(l.indent)..][|l.text|..] == LineEnding;
  }

  /** The text of a sequence of lines, rendered one after the other. */
  function Render(ls: seq<Line>): string {
    if ls == [] then "" else Render(ls[..|ls| - 1]) + RenderLine(ls[|ls| - 1])
  }

  lemma RenderSnoc(ls: seq<Line>, l: Line)
    ensures Render(ls + [l]) == Render(ls) + RenderLine(l)
  {
    assert (ls + [l])[..|ls|] == ls;
  }

  /** Seven lines appended one at a time render one after the other. */
  lemma RenderSnoc7(ls: seq<Line>, a: Line, b: Line, c: Line, d: Line, e: Line, f: Line, g: Line)
    ensures Render(ls + [a] + [b] + [c] + [d] + [e] + [f] + [g]) ==
      Render(ls) + RenderLine(a) + RenderLine(b) + RenderLine(c) + RenderLine(d) +
      RenderLine(e) + RenderLine(f) + RenderLine(g)
  {
    RenderSnoc(ls, a);
    RenderSnoc(ls + [a], b);
    RenderSnoc(ls + [a] + [b], c);
    RenderSnoc(ls + [a] + [b] + [c], d);
    RenderSnoc(ls + [a] + [b] + [c] + [d], e);
    RenderSnoc(ls + [a] + [b] + [c] + [d] + [e], f);
    RenderSnoc(ls + [a] + [b] + [c] + [d] + [e] + [f], g);
  }

  /** Eight lines appended one at a time render one after the other. */
  lemma RenderSnoc8(ls: seq<Line>, a: Line, b: Line, c: Line, d: Line, e: Line, f: Line, g: Line, h: Line)
    ensures Render(ls + [a] + [b] + [c] + [d] + [e] + [f] + [g] + [h]) ==
      Render(ls) + RenderLine(a) + RenderLine(b) + RenderLine(c) + RenderLine(d) +
      RenderLine(e) + RenderLine(f) + RenderLine(g) + RenderLine(h)
  {
    RenderSnoc7(ls, a, b, c, d, e, f, g);
    RenderSnoc(ls + [a] + [b] + [c] + [d] + [e] + [f] + [g], h);
  }

  /** Nine lines appended one at a time render one after the other. */
  lemma RenderSnoc9(ls: seq<Line>, a: Line, b: Line, c: Line, d: Line, e: Line, f: Line, g: Line, h: Line, i: Line)
    ensures Render(ls + [a] + [b] + [c] + [d] + [e] + [f] + [g] + [h] + [i]) ==
      Render(ls) + RenderLine(a) + RenderLine(b) + RenderLine(c) + RenderLine(d) +
      RenderLine(e) + RenderLine(f) + RenderLine(g) + RenderLine(h) + RenderLine(i)
  {
    RenderSnoc8(ls, a, b, c, d, e, f, g, h);
    RenderSnoc(ls + [a] + [b] + [c] + [d] + [e] + [f] + [g] + [h], i);
  }

  /** Rendering distributes over concatenation of line sequences. */
  lemma {:induction false} RenderAppend(a: seq<Line>, b: seq<Line>)
    ensures Render(a + b) == Render(a) + Render(b)
    decreases |b|
  {
    if b == [] {
      assert a + b == a;
    } else {
      var b', l := b[..|b| - 1], b[|b| - 1];
      assert a + b == (a + b') + [l];
      assert b == b' + [l];
      RenderSnoc(a + b', l);
      RenderAppend(a, b');
      RenderSnoc(b', l);
    }
  }

  /** A rendering of at least one line ends with the line ending, and the
      rendering of the last line is its tail. */
  lemma RenderLastLine(ls: seq<Line>)
    requires ls != []
    ensures var r := Render(ls); |r| >= 2 && r[|r| - 2..] == LineEnding
  {
    RenderLineShape(ls[|ls| - 1]);
  }

  // ----- the document lines -----

  /** The header both generators write: the XML declaration, the `kml`
      element and the opening of the `Document`. */
  function OpenDocument(): seq<Line> {
    [Line(0, XmlDeclaration)] + [Line(0, KmlOpen)] + [Line(4, "<Document>")]
  }

  /** The lines of a single-point document. */
  function PointLines(name: string, description: string, longitude: string, latitude: string): seq<Line> {
    OpenDocument() +
    [Line(8, "<Placemark>")] +
    [Line(12, "<name>" + name + "</name>")] +
    [Line(12, "<description>" + description + "</description>")] +
    [Line(12, "<Point>")] +
    [Line(16, "<coordinates>" + longitude + "," + latitude + "</coordinates>")] +
    [Line(12, "</Point>")] +
    [Line(8, "</Placemark>")] +
    [Line(4, "</Document>")] +
    [Line(0, "</kml>")]
  }

  /** `ls` followed by the style of the last placemark, which has no direction. */
  function WithNormalStyle(ls: seq<Line>): seq<Line> {
    ls +
    [Line(8, "<Style id=\"normalPlacemark\">")] +
    [Line(12, "<IconStyle>")] +
    [Line(16, "<Icon>")] +
    [Line(20, "<href>" + IconBase + "track-none.png</href>")] +
    [Line(16, "</Icon>")] +
    [Line(12, "</IconStyle>")] +
    [Line(8, "</Style>")]
  }

  /** The seven lines of the style of direction `index`. */
  function BearingStyleBlock(rt: Runtime, index: nat): seq<Line> {
    [Line(4, "<Style id=\"bearing" + rt.numberToString(index as real) + "\">"),
     Line(8, "<IconStyle>"),
     Line(12, "<Icon>"),
     Line(16, "<href>" + IconBase + "track-" + rt.numberToString(index as real) + ".png</href>"),
     Line(16, "</Icon>"),
     Line(12, "</IconStyle>"),
     Line(8, "</Style>")]
  }

  /** `ls` followed by the style of direction `index`. */
  function WithBearingStyle(rt: Runtime, ls: seq<Line>, index: nat): seq<Line> {
    ls + BearingStyleBlock(rt, index)
  }

  /** The number of direction styles, one per 22.5 degrees. */
  const BucketCount: nat := 16

  /** `ls` followed by the styles of directions `from` to 15. */
  function WithBearingStyles(rt: Runtime, ls: seq<Line>, from: nat): seq<Line>
    decreases BucketCount - from
  {
    if from >= BucketCount then ls else WithBearingStyles(rt, WithBearingStyle(rt, ls, from), from + 1)
  }

  /** The lines of a track document before its first placemark. */
  function StyleLines(rt: Runtime): seq<Line> {
    WithBearingStyles(rt, WithNormalStyle(OpenDocument()), 0)
  }

  predicate NoNullish(items: seq<Value>) {
    forall i :: 0 <= i < |items| ==> !Nullish(items[i])
  }

  /** The bearing from one track item to the next, as getBearing computes it
      from the items' `latitude` and `longitude` converted to numbers; None
      when one of them is NaN. */
  function ItemBearing(rt: Runtime, from: Value, to: Value): (r: Option<real>)
    requires !Nullish(from) && !Nullish(to)
    ensures r.Some? ==> 0.0 <= r.value < 360.0
    ensures r.None? <==> ToNumber(rt, Field(from, "latitude")).None? || ToNumber(rt, Field(from, "longitude")).None? ||
                         ToNumber(rt, Field(to, "latitude")).None? || ToNumber(rt, Field(to, "longitude")).None?
  {
    var startLat, startLong := ToNumber(rt, Field(from, "latitude")), ToNumber(rt, Field(from, "longitude"));
    var endLat, endLong := ToNumber(rt, Field(to, "latitude")), ToNumber(rt, Field(to, "longitude"));
    if startLat.Some? && startLong.Some? && endLat.Some? && endLong.Some? then
      Some(Bearing.GetBearing(rt, startLat.value, startLong.value, endLat.value, endLong.value))
    else None
  }

  /** The text of `Math.ceil(bearing / 22.5) % 16`: the decimal numeral of
      the bucket, or "NaN". */
  function BucketText(rt: Runtime, bearing: Option<real>): (r: string)
    ensures bearing.None? ==> r == "NaN"
    ensures bearing.Some? && 0.0 <= bearing.value < 360.0 ==>
      0 <= Bearing.Bucket(bearing.value) < BucketCount && r == NatToStr(Bearing.Bucket(bearing.value))
  {
    match bearing
    case Some(b) => rt.numberToString(Bearing.Bucket(b) as real)
    case None => "NaN"
  }

  /** The style a placemark refers to: the normal style for the last item,
      otherwise the direction style of the bearing to the next item. */
  function StyleUrl(rt: Runtime, items: seq<Value>, index: nat): string
    requires NoNullish(items) && index < |items|
  {
    if |items| == index + 1 then NormalStyleUrl
    else "#bearing" + BucketText(rt, ItemBearing(rt, items[index], items[index + 1]))
  }

  /** The style of every placemark, in item order. */
  function StyleUrls(rt: Runtime, items: seq<Value>): seq<string>
    requires NoNullish(items)
  {
    seq(|items|, i requires 0 <= i < |items| => StyleUrl(rt, items, i))
  }

  /** The eight lines of the placemark of one track item. */
  function PlacemarkBlock(rt: Runtime, item: Value, url: string): seq<Line> {
    [Line(4, "<Placemark>"),
     Line(8, "<name>" + ToStr(rt, Field(item, "name")) + "</name>"),
     Line(8, "<description>" + ToStr(rt, Field(item, "description")) + "</description>"),
     Line(8, "<Point>"),
     Line(12, "<coordinates>" + ToStr(rt, Field(item, "longitude")) + "," + ToStr(rt, Field(item, "latitude")) + "</coordinates>"),
     Line(8, "</Point>"),
     Line(4, "<styleUrl>" + url + "</styleUrl>"),
     Line(4, "</Placemark>")]
  }

  /** `ls` followed by the placemark of one track item. */
  function WithPlacemark(ls: seq<Line>, rt: Runtime, item: Value, url: string): seq<Line> {
    ls + PlacemarkBlock(rt, item, url)
  }

  /** `ls` followed by the placemarks of the first `count` items, the i-th
      referring to style `urls[i]`. */
  function WithPlacemarks(ls: seq<Line>, rt: Runtime, items: seq<Value>, urls: seq<string>, count: nat): seq<Line>
    requires count <= |items| && count <= |urls|
  {
    if count == 0 then ls
    else WithPlacemark(WithPlacemarks(ls, rt, items, urls, count - 1), rt, items[count - 1], urls[count - 1])
  }

  /** The lines of a track document. Its closing lines sit one indentation
      step further left than those of the single-point document. */
  function TrackLines(rt: Runtime, items: seq<Value>): seq<Line>
    requires NoNullish(items)
  {
    WithPlacemarks(StyleLines(rt), rt, items, StyleUrls(rt, items), |items|) + [Line(0, "</Document>")] + [Line(-4, "</kml>")]
  }

  // ----- the rendering of each block -----

  /** The rendering of a point document, line by line. */
  lemma RenderPointLines(name: string, description: string, longitude: string, latitude: string)
    ensures Render(PointLines(name, description, longitude, latitude)) ==
      Render(OpenDocument()) +
      RenderLine(Line(8, "<Placemark>")) +
      RenderLine(Line(12, "<name>" + name + "</name>")) +
      RenderLine(Line(12, "<description>" + description + "</description>")) +
      RenderLine(Line(12, "<Point>")) +
      RenderLine(Line(16, "<coordinates>" + longitude + "," + latitude + "</coordinates>")) +
      RenderLine(Line(12, "</Point>")) +
      RenderLine(Line(8, "</Placemark>")) +
      RenderLine(Line(4, "</Document>")) +
      RenderLine(Line(0, "</kml>"))
  {
    RenderSnoc9(OpenDocument(), Line(8, "<Placemark>"), Line(12, "<name>" + name + "</name>"),
      Line(12, "<description>" + description + "</description>"), Line(12, "<Point>"),
      Line(16, "<coordinates>" + longitude + "," + latitude + "</coordinates>"), Line(12, "</Point>"),
      Line(8, "</Placemark>"), Line(4, "</Document>"), Line(0, "</kml>"));
  }

  /** The rendering of the normal style block, line by line. */
  lemma RenderWithNormalStyle(ls: seq<Line>)
    ensures Render(WithNormalStyle(ls)) ==
      Render(ls) +
      RenderLine(Line(8, "<Style id=\"normalPlacemark\">")) +
      RenderLine(Line(12, "<IconStyle>")) +
      RenderLine(Line(16, "<Icon>")) +
      RenderLine(Line(20, "<href>" + IconBase + "track-none.png</href>")) +
      RenderLine(Line(16, "</Icon>")) +
      RenderLine(Line(12, "</IconStyle>")) +
      RenderLine(Line(8, "</Style>"))
  {
    RenderSnoc7(ls, Line(8, "<Style id=\"normalPlacemark\">"), Line(12, "<IconStyle>"), Line(16, "<Icon>"),
      Line(20, "<href>" + IconBase + "track-none.png</href>"), Line(16, "</Icon>"), Line(12, "</IconStyle>"),
      Line(8, "</Style>"));
  }

  /** The rendering of one direction style block, line by line. */
  lemma RenderWithBearingStyle(rt: Runtime, ls: seq<Line>, index: nat)
    ensures Render(WithBearingStyle(rt, ls, index)) ==
      Render(ls) +
      RenderLine(Line(4, "<Style id=\"bearing" + rt.numberToString(index as real) + "\">")) +
      RenderLine(Line(8, "<IconStyle>")) +
      RenderLine(Line(12, "<Icon>")) +
      RenderLine(Line(16, "<href>" + IconBase + "track-" + rt.numberToString(index as real) + ".png</href>")) +
      RenderLine(Line(16, "</Icon>")) +
      RenderLine(Line(12, "</IconStyle>")) +
      RenderLine(Line(8, "</Style>"))
  {
    assert WithBearingStyle(rt, ls, index) ==
      ls + [Line(4, "<Style id=\"bearing" + rt.numberToString(index as real) + "\">")] +
      [Line(8, "<IconStyle>")] + [Line(12, "<Icon>")] +
      [Line(16, "<href>" + IconBase + "track-" + rt.numberToString(index as real) + ".png</href>")] +
      [Line(16, "</Icon>")] + [Line(12, "</IconStyle>")] + [Line(8, "</Style>")];
    RenderSnoc7(ls, Line(4, "<Style id=\"bearing" + rt.numberToString(index as real) + "\">"), Line(8, "<IconStyle>"),
      Line(12, "<Icon>"), Line(16, "<href>" + IconBase + "track-" + rt.numberToString(index as real) + ".png</href>"),
      Line(16, "</Icon>"), Line(12, "</IconStyle>"), Line(8, "</Style>"));
  }

  /** The rendering of one placemark block, line by line. */
  lemma RenderWithPlacemark(ls: seq<Line>, rt: Runtime, item: Value, url: string)
    ensures Render(WithPlacemark(ls, rt, item, url)) ==
      Render(ls) +
      RenderLine(Line(4, "<Placemark>")) +
      RenderLine(Line(8, "<name>" + ToStr(rt, Field(item, "name")) + "</name>")) +
      RenderLine(Line(8, "<description>" + ToStr(rt, Field(item, "description")) + "</description>")) +
      RenderLine(Line(8, "<Point>")) +
      RenderLine(Line(12, "<coordinates>" + ToStr(rt, Field(item, "longitude")) + "," + ToStr(rt, Field(item, "latitude")) + "</coordinates>")) +
      RenderLine(Line(8, "</Point>")) +
      RenderLine(Line(4, "<styleUrl>" + url + "</styleUrl>")) +
      RenderLine(Line(4, "</Placemark>"))
  {
    assert WithPlacemark(ls, rt, item, url) ==
      ls + [Line(4, "<Placemark>")] + [Line(8, "<name>" + ToStr(rt, Field(item, "name")) + "</name>")] +
      [Line(8, "<description>" + ToStr(rt, Field(item, "description")) + "</description>")] +
      [Line(8, "<Point>")] +
      [Line(12, "<coordinates>" + ToStr(rt, Field(item, "longitude")) + "," + ToStr(rt, Field(item, "latitude")) + "</coordinates>")] +
      [Line(8, "</Point>")] + [Line(4, "<styleUrl>" + url + "</styleUrl>")] + [Line(4, "</Placemark>")];
    RenderSnoc8(ls, Line(4, "<Placemark>"), Line(8, "<name>" + ToStr(rt, Field(item, "name")) + "</name>"),
      Line(8, "<description>" + ToStr(rt, Field(item, "description")) + "</description>"), Line(8, "<Point>"),
      Line(12, "<coordinates>" + ToStr(rt, Field(item, "longitude")) + "," + ToStr(rt, Field(item, "latitude")) + "</coordinates>"),
      Line(8, "</Point>"), Line(4, "<styleUrl>" + url + "</styleUrl>"), Line(4, "</Placemark>"));
  }

  // ----- writing the blocks -----

  /** `data += indentStr(text + lineEnding, indent)` */
  method AppendLine(data: string, indent: int, text: string) returns (data': string)
    ensures data' == data + RenderLine(Line(indent, text))
  {
    var s := IndentStr(text + LineEnding, indent);
    data' := data + s;
  }

  /** The header both generators start with, written from `lineIndent` 0;
      it leaves `lineIndent` at 8. */
  method WriteHeader() returns (data: string, lineIndent: int)
    ensures data == Render(OpenDocument())
    ensures lineIndent == 8
  {
    data, lineIndent := "", 0;
    data := AppendLine(data, lineIndent, XmlDeclaration);
    data := AppendLine(data, lineIndent, KmlOpen);
    lineIndent := lineIndent + IndentStep;
    data := AppendLine(data, lineIndent, "<Document>");
    lineIndent := lineIndent + IndentStep;
    assert [Line(0, XmlDeclaration)] == [] + [Line(0, XmlDeclaration)];
    RenderSnoc([], Line(0, XmlDeclaration));
    RenderSnoc([Line(0, XmlDeclaration)], Line(0, KmlOpen));
    RenderSnoc([Line(0, XmlDeclaration)] + [Line(0, KmlOpen)], Line(4, "<Document>"));
  }

  /** The normal style, written from `lineIndent` 8; it leaves `lineIndent` at 4. */
  method WriteNormalStyle(data: string, ghost lines: seq<Line>, lineIndent: int) returns (data': string, lineIndent': int)
    requires data == Render(lines) && lineIndent == 8
    ensures data' == Render(WithNormalStyle(lines))
    ensures lineIndent' == 4
  {
    var data, lineIndent := data, lineIndent;
    data := AppendLine(data, lineIndent, "<Style id=\"normalPlacemark\">");
    lineIndent := lineIndent + IndentStep;
    data := AppendLine(data, lineIndent, "<IconStyle>");
    lineIndent := lineIndent + IndentStep;
    data := AppendLine(data, lineIndent, "<Icon>");
    lineIndent := lineIndent + IndentStep;
    data := AppendLine(data, lineIndent, "<href>" + IconBase + "track-none.png</href>");
    lineIndent := lineIndent - IndentStep;
    data := AppendLine(data, lineIndent, "</Icon>");
    lineIndent := lineIndent - IndentStep;
    data := AppendLine(data, lineIndent, "</IconStyle>");
    lineIndent := lineIndent - IndentStep;
    data := AppendLine(data, lineIndent, "</Style>");
    lineIndent := lineIndent - IndentStep;
    RenderWithNormalStyle(lines);
    data', lineIndent' := data, lineIndent;
  }

  /** One pass of the style loop: the style of direction `index`, written
      from `lineIndent` 4 and back. */
  method WriteBearingStyle(rt: Runtime, data: string, ghost lines: seq<Line>, lineIndent: int, index: nat)
    returns (data': string, lineIndent': int)
    requires data == Render(lines) && lineIndent == 4
    ensures data' == Render(WithBearingStyle(rt, lines, index))
    ensures lineIndent' == lineIndent
  {
    var data, lineIndent := data, lineIndent;
    var id := rt.numberToString(index as real);
    data := AppendLine(data, lineIndent, "<Style id=\"bearing" + id + "\">");
    lineIndent := lineIndent + IndentStep;
    data := AppendLine(data, lineIndent, "<IconStyle>");
    lineIndent := lineIndent + IndentStep;
    data := AppendLine(data, lineIndent, "<Icon>");
    lineIndent := lineIndent + IndentStep;
    data := AppendLine(data, lineIndent, "<href>" + IconBase + "track-" + id + ".png</href>");
    data := AppendLine(data, lineIndent, "</Icon>");
    lineIndent := lineIndent - IndentStep;
    data := AppendLine(data, lineIndent, "</IconStyle>");
    lineIndent := lineIndent - IndentStep;
    data := AppendLine(data, lineIndent, "</Style>");
    lineIndent := lineIndent - IndentStep;
    RenderWithBearingStyle(rt, lines, index);
    data', lineIndent' := data, lineIndent;
  }

  /** The placemark of one track item, written from `lineIndent` 4 and back. */
  method WritePlacemark(rt: Runtime, data: string, ghost lines: seq<Line>, lineIndent: int, item: Value, urlStyle: string)
    returns (data': string, lineIndent': int)
    requires data == Render(lines) && lineIndent == 4 && !Nullish(item)
    ensures data' == Render(WithPlacemark(lines, rt, item, urlStyle))
    ensures lineIndent' == lineIndent
  {
    var data, lineIndent := data, lineIndent;
    var name, description := ToStr(rt, Field(item, "name")), ToStr(rt, Field(item, "description"));
    var longitude, latitude := ToStr(rt, Field(item, "longitude")), ToStr(rt, Field(item, "latitude"));
    data := AppendLine(data, lineIndent, "<Placemark>");
    lineIndent := lineIndent + IndentStep;
    data := AppendLine(data, lineIndent, "<name>" + name + "</name>");
    data := AppendLine(data, lineIndent, "<description>" + description + "</description>");
    data := AppendLine(data, lineIndent, "<Point>");
    lineIndent := lineIndent + IndentStep;
    data := AppendLine(data, lineIndent, "<coordinates>" + longitude + "," + latitude + "</coordinates>");
    lineIndent := lineIndent - IndentStep;
    data := AppendLine(data, lineIndent, "</Point>");
    lineIndent := lineIndent - IndentStep;
    data := AppendLine(data, lineIndent, "<styleUrl>" + urlStyle + "</styleUrl>");
    data := AppendLine(data, lineIndent, "</Placemark>");
    RenderWithPlacemark(lines, rt, item, urlStyle);
    data', lineIndent' := data, lineIndent;
  }

  // ----- kml.generate -----

  /** The input kml.generate renders: an object whose `position` is an object
      with a string `name` and `description` and a numeric `latitude` and
      `longitude` (own properties). */
  predicate ValidPointOptions(options: Value) {
    options.Obj? && "position" in options.props &&
    var p := options.props["position"];
    p.Obj? &&
    "name" in p.props && p.props["name"].Str? &&
    "description" in p.props && p.props["description"].Str? &&
    "latitude" in p.props && p.props["latitude"].Num? &&
    "longitude" in p.props && p.props["longitude"].Num?
  }

  /** The inputs on which kml.generate throws: `typeof null` is "object", so
      a null options or a null position passes the guard and is then read. */
  predicate PointThrows(options: Value) {
    options.Null? ||
    (options.Obj? && "position" in options.props && options.props["position"].Null?)
  }

  /** The document for valid options. */
  function PointText(rt: Runtime, options: Value): string
    requires ValidPointOptions(options)
  {
    var p := options.props["position"].props;
    Render(PointLines(p["name"].s, p["description"].s,
                      rt.numberToString(p["longitude"].n), rt.numberToString(p["latitude"].n)))
  }

  /** kml.generate: the document of one position; "" when the options are
      not of the expected shape; TypeError on a null options or position. */
  method Generate(rt: Runtime, options: Value) returns (out: Result<string>)
    ensures PointThrows(options) ==> out == TypeError
    ensures !PointThrows(options) && !ValidPointOptions(options) ==> out == Ok("")
    ensures ValidPointOptions(options) ==> out == Ok(PointText(rt, options))
  {
    if TypeOf(options) != "object" {
      return Ok("");
    }
    if Nullish(options) {
      return TypeError;
    }
    var position := Field(options, "position");
    if TypeOf(position) != "object" {
      return Ok("");
    }
    if Nullish(position) {
      return TypeError;
    }
    var name, description := Field(position, "name"), Field(position, "description");
    var latitude, longitude := Field(position, "latitude"), Field(position, "longitude");
    if TypeOf(name) != "string" || TypeOf(description) != "string" ||
       TypeOf(latitude) != "number" || TypeOf(longitude) != "number" {
      return Ok("");
    }
    var document := PointDocument(name.s, description.s, ToStr(rt, longitude), ToStr(rt, latitude));
    assert ValidPointOptions(options);
    return Ok(document);
  }

  /** The writing part of kml.generate, once the options are checked. */
  method PointDocument(name: string, description: string, longitude: string, latitude: string) returns (data: string)
    ensures data == Render(PointLines(name, description, longitude, latitude))
  {
    var lineIndent;
    data, lineIndent := WriteHeader();
    data := AppendLine(data, lineIndent, "<Placemark>");
    lineIndent := lineIndent + IndentStep;
    data := AppendLine(data, lineIndent, "<name>" + name + "</name>");
    data := AppendLine(data, lineIndent, "<description>" + description + "</description>");
    data := AppendLine(data, lineIndent, "<Point>");
    lineIndent := lineIndent + IndentStep;
    data := AppendLine(data, lineIndent, "<coordinates>" + longitude + "," + latitude + "</coordinates>");
    lineIndent := lineIndent - IndentStep;
    data := AppendLine(data, lineIndent, "</Point>");
    lineIndent := lineIndent - IndentStep;
    data := AppendLine(data, lineIndent, "</Placemark>");
    lineIndent := lineIndent - IndentStep;
    data := AppendLine(data, lineIndent, "</Document>");
    lineIndent := lineIndent - IndentStep;
    data := AppendLine(data, lineIndent, "</kml>");
    RenderPointLines(name, description, longitude, latitude);
  }

  // ----- kml.generateTrack -----

  /** The opening of a track document: the header and the normal style. */
  method WriteTrackOpening() returns (data: string, lineIndent: int, ghost lines: seq<Line>)
    ensures lines == WithNormalStyle(OpenDocument())
    ensures data == Render(lines) && lineIndent == 4
  {
    data, lineIndent := WriteHeader();
    data, lineIndent := WriteNormalStyle(data, OpenDocument(), lineIndent);
    lines := WithNormalStyle(OpenDocument());
  }

  /** Everything kml.generateTrack writes before its placemark loop,
      including the loop over the 16 direction styles. */
  method WriteStyles(rt: Runtime) returns (data: string, lineIndent: int)
    ensures data == Render(StyleLines(rt)) && lineIndent == 4
  {
    ghost var lines;
    data, lineIndent, lines := WriteTrackOpening();
    for index := 0 to BucketCount
      invariant WithBearingStyles(rt, lines, index) == StyleLines(rt)
      invariant data == Render(lines) && lineIndent == 4
    {
      data, lineIndent := WriteBearingStyle(rt, data, lines, lineIndent, index);
      lines := WithBearingStyle(rt, lines, index);
    }
  }

  /** The style URL of placemark `index`: the normal style for the last
      item, otherwise the direction of the bearing to the next item, which
      throws when either item is null or undefined. */
  method ChooseStyle(rt: Runtime, items: seq<Value>, index: nat) returns (url: Result<string>)
    requires index < |items|
    ensures index + 1 == |items| ==> url == Ok(NormalStyleUrl)
    ensures index + 1 < |items| && (Nullish(items[index]) || Nullish(items[index + 1])) ==> url == TypeError
    ensures index + 1 < |items| && !Nullish(items[index]) && !Nullish(items[index + 1]) ==>
      url == Ok("#bearing" + BucketText(rt, ItemBearing(rt, items[index], items[index + 1])))
  {
    if |items| == index + 1 {
      return Ok(NormalStyleUrl);
    }
    if Nullish(items[index]) || Nullish(items[index + 1]) {
      return TypeError;
    }
    var bearing := ItemBearing(rt, items[index], items[index + 1]);
    return Ok("#bearing" + BucketText(rt, bearing));
  }

  /** One turn of the placemark loop: the placemark of item `index`, or
      TypeError when that item or, unless it is the last, the next one is
      null or undefined. */
  method WriteItemPlacemark(rt: Runtime, data: string, ghost lines: seq<Line>, lineIndent: int, items: seq<Value>, index: nat)
    returns (out: Result<string>, lineIndent': int, ghost url: string)
    requires index < |items| && data == Render(lines) && lineIndent == 4
    ensures lineIndent' == lineIndent
    ensures out.TypeError? ==> !NoNullish(items)
    ensures out.Ok? ==> !Nullish(items[index]) && out.value == Render(WithPlacemark(lines, rt, items[index], url))
    ensures out.Ok? && NoNullish(items) ==> url == StyleUrl(rt, items, index)
  {
    var urlStyle := ChooseStyle(rt, items, index);
    if urlStyle.TypeError? || Nullish(items[index]) {
      return TypeError, lineIndent, "";
    }
    var data', indent' := WritePlacemark(rt, data, lines, lineIndent, items[index], urlStyle.value);
    return Ok(data'), indent', urlStyle.value;
  }

  /** The placemark loop of kml.generateTrack: one placemark per item, whose
      style is chosen from the bearing to the next item. It throws as soon as
      it reads a property of a null or undefined item. */
  method WritePlacemarks(rt: Runtime, data: string, ghost lines: seq<Line>, lineIndent: int, items: seq<Value>)
    returns (out: Result<string>)
    requires data == Render(lines) && lineIndent == 4
    ensures !NoNullish(items) ==> out == TypeError
    ensures NoNullish(items) ==> out == Ok(Render(WithPlacemarks(lines, rt, items, StyleUrls(rt, items), |items|)))
  {
    var data, lineIndent := data, lineIndent;
    ghost var start := lines;
    ghost var lines := lines;
    for index := 0 to |items|
      invariant forall j :: 0 <= j < index ==> !Nullish(items[j])
      invariant NoNullish(items) ==> lines == WithPlacemarks(start, rt, items, StyleUrls(rt, items), index)
      invariant data == Render(lines) && lineIndent == 4
    {
      ghost var url;
      var step;
      step, lineIndent, url := WriteItemPlacemark(rt, data, lines, lineIndent, items, index);
      if step.TypeError? {
        return TypeError;
      }
      data := step.value;
      lines := WithPlacemark(lines, rt, items[index], url);
    }
    return Ok(data);
  }

  /** kml.generateTrack: the track document of an array of items; "" when
      the argument is not an array; TypeError when an item is null or
      undefined, since its properties are read. */
  method GenerateTrack(rt: Runtime, trackItems: Value) returns (out: Result<string>)
    ensures !trackItems.Arr? ==> out == Ok("")
    ensures trackItems.Arr? && !NoNullish(trackItems.elems) ==> out == TypeError
    ensures trackItems.Arr? && NoNullish(trackItems.elems) ==> out == Ok(Render(TrackLines(rt, trackItems.elems)))
  {
    if !trackItems.Arr? {
      return Ok("");
    }
    var items := trackItems.elems;
    var data, lineIndent := WriteStyles(rt);
    var placemarks := WritePlacemarks(rt, data, StyleLines(rt), lineIndent, items);
    if placemarks.TypeError? {
      return TypeError;
    }
    data := placemarks.value;
    ghost var lines := WithPlacemarks(StyleLines(rt), rt, items, StyleUrls(rt, items), |items|);
    lineIndent := lineIndent - IndentStep;
    data := AppendLine(data, lineIndent, "</Document>");
    lineIndent := lineIndent - IndentStep;
    data := AppendLine(data, lineIndent, "</kml>");
    RenderSnoc(lines, Line(0, "</Document>"));
    RenderSnoc(lines + [Line(0, "</Document>")], Line(-4, "</kml>"));
    return Ok(data);
  }
}
