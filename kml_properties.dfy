/** Properties of the documents kml.generate and kml.generateTrack write:
    where each block of lines sits, which style every placemark refers to,
    and that each referenced direction style is declared. */
module KmlProperties {
  import opened Js
  import opened Kml
  import Bearing

  /** The first line of a direction style: its `Style` element. */
  function BearingStyleHead(rt: Runtime, index: nat): Line {
    BearingStyleBlock(rt, index)[0]
  }

  /** The icon line of a direction style. */
  function BearingStyleHref(rt: Runtime, index: nat): Line {
    BearingStyleBlock(rt, index)[3]
  }

  /** `ls` followed by `block(from)`, ..., `block(15)`: the shape of the
      direction styles, with the blocks' contents left open. */
  function Blocks(block: nat -> seq<Line>, ls: seq<Line>, from: nat): seq<Line>
    decreases BucketCount - from
  {
    if from >= BucketCount then ls else Blocks(block, ls + block(from), from + 1)
  }

  function StyleBlocks(rt: Runtime): nat -> seq<Line> {
    (index: nat) => BearingStyleBlock(rt, index)
  }

  lemma {:induction false} BearingStylesAreBlocks(rt: Runtime, ls: seq<Line>, from: nat)
    ensures WithBearingStyles(rt, ls, from) == Blocks(StyleBlocks(rt), ls, from)
    decreases BucketCount - from
  {
    if from < BucketCount {
      assert StyleBlocks(rt)(from) == BearingStyleBlock(rt, from);
      BearingStylesAreBlocks(rt, WithBearingStyle(rt, ls, from), from + 1);
    }
  }

  lemma {:induction false} BlocksLength(block: nat -> seq<Line>, ls: seq<Line>, from: nat)
    requires from <= BucketCount && forall i: nat :: |block(i)| == 7
    ensures |Blocks(block, ls, from)| == |ls| + 7 * (BucketCount - from)
    ensures Blocks(block, ls, from)[..|ls|] == ls
    decreases BucketCount - from
  {
    if from < BucketCount {
      var ls' := ls + block(from);
      BlocksLength(block, ls', from + 1);
      var w := Blocks(block, ls', from + 1);
      assert w[..|ls|] == w[..|ls'|][..|ls|];
      assert ls'[..|ls|] == ls;
    }
  }

  lemma {:induction false} BlocksLineAt(block: nat -> seq<Line>, ls: seq<Line>, from: nat, k: nat, d: nat)
    requires from <= k < BucketCount && d < 7 && forall i: nat :: |block(i)| == 7
    ensures |ls| + 7 * (k - from) + d < |Blocks(block, ls, from)|
    ensures Blocks(block, ls, from)[|ls| + 7 * (k - from) + d] == block(k)[d]
    decreases BucketCount - from
  {
    var ls' := ls + block(from);
    var w := Blocks(block, ls', from + 1);
    BlocksLength(block, ls', from + 1);
    if k == from {
      assert ls'[|ls| + d] == block(from)[d];
      assert w[|ls| + d] == w[..|ls'|][|ls| + d];
    } else {
      BlocksLineAt(block, ls', from + 1, k, d);
      assert |ls| + 7 * (k - from) + d == |ls'| + 7 * (k - (from + 1)) + d;
    }
  }

  /** Appending the direction styles `from` to 15 adds seven lines per
      direction after `ls`. */
  lemma BearingStylesLength(rt: Runtime, ls: seq<Line>, from: nat)
    requires from <= BucketCount
    ensures |WithBearingStyles(rt, ls, from)| == |ls| + 7 * (BucketCount - from)
    ensures WithBearingStyles(rt, ls, from)[..|ls|] == ls
  {
    BearingStylesAreBlocks(rt, ls, from);
    BlocksLength(StyleBlocks(rt), ls, from);
  }

  /** Line d of direction style k sits 7 (k - from) + d lines after `ls`. */
  lemma BearingStyleLineAt(rt: Runtime, ls: seq<Line>, from: nat, k: nat, d: nat)
    requires from <= k < BucketCount && d < 7
    ensures |ls| + 7 * (k - from) + d < |WithBearingStyles(rt, ls, from)|
    ensures WithBearingStyles(rt, ls, from)[|ls| + 7 * (k - from) + d] == BearingStyleBlock(rt, k)[d]
  {
    BearingStylesAreBlocks(rt, ls, from);
    BlocksLineAt(StyleBlocks(rt), ls, from, k, d);
  }

  /** The track header: the document opening (3 lines), the normal style at
      line 3 with its icon at line 6, then the direction styles; 122 lines
      in all. */
  lemma StyleLinesShape(rt: Runtime)
    ensures |StyleLines(rt)| == 122
    ensures StyleLines(rt)[..3] == OpenDocument()
    ensures StyleLines(rt)[3] == Line(8, "<Style id=\"normalPlacemark\">")
    ensures StyleLines(rt)[6] == Line(20, "<href>" + IconBase + "track-none.png</href>")
  {
    var head := WithNormalStyle(OpenDocument());
    assert |head| == 10;
    BearingStylesLength(rt, head, 0);
    var s := StyleLines(rt);
    assert s[..3] == s[..10][..3];
    assert head[..3] == OpenDocument();
    assert s[3] == s[..10][3];
    assert s[6] == s[..10][6];
  }

  /** Direction style k of the header opens at line 10 + 7k, with its icon
      at line 13 + 7k. */
  lemma StyleLinesDirections(rt: Runtime)
    ensures |StyleLines(rt)| == 122
    ensures forall k :: 0 <= k < BucketCount ==>
      StyleLines(rt)[10 + 7 * k] == BearingStyleHead(rt, k) &&
      StyleLines(rt)[13 + 7 * k] == BearingStyleHref(rt, k)
  {
    StyleLinesShape(rt);
    var head := WithNormalStyle(OpenDocument());
    forall k | 0 <= k < BucketCount
      ensures StyleLines(rt)[10 + 7 * k] == BearingStyleHead(rt, k) &&
        StyleLines(rt)[13 + 7 * k] == BearingStyleHref(rt, k)
    {
      BearingStyleLineAt(rt, head, 0, k, 0);
      BearingStyleLineAt(rt, head, 0, k, 3);
    }
  }

  /** In every direction style, the style's id and its icon name carry the
      same number, and for each direction k (0 to 15) that number is the
      decimal numeral of k. */
  lemma BearingStyleNames(rt: Runtime, k: nat)
    requires k < BucketCount
    ensures BearingStyleHead(rt, k).text == "<Style id=\"bearing" + rt.numberToString(k as real) + "\">"
    ensures BearingStyleHref(rt, k).text == "<href>" + IconBase + "track-" + rt.numberToString(k as real) + ".png</href>"
    ensures BearingStyleHead(rt, k).text == "<Style id=\"bearing" + NatToStr(k) + "\">"
    ensures BearingStyleHref(rt, k).text == "<href>" + IconBase + "track-" + NatToStr(k) + ".png</href>"
  {
  }

  /** A placemark is eight lines: it opens with `<Placemark>`, refers to its
      style in its seventh line and closes with `</Placemark>`. */
  lemma PlacemarkBlockShape(rt: Runtime, item: Value, url: string)
    ensures |PlacemarkBlock(rt, item, url)| == 8
    ensures PlacemarkBlock(rt, item, url)[0] == Line(4, "<Placemark>")
    ensures PlacemarkBlock(rt, item, url)[6] == Line(4, "<styleUrl>" + url + "</styleUrl>")
    ensures PlacemarkBlock(rt, item, url)[7] == Line(4, "</Placemark>")
  {
  }

  /** The length of the placemarks part, and that `ls` stays in front. */
  lemma {:induction false} PlacemarksLength(ls: seq<Line>, rt: Runtime, items: seq<Value>, urls: seq<string>, count: nat)
    requires count <= |items| && count <= |urls|
    ensures |WithPlacemarks(ls, rt, items, urls, count)| == |ls| + 8 * count
    ensures WithPlacemarks(ls, rt, items, urls, count)[..|ls|] == ls
  {
    if count > 0 {
      var prev := WithPlacemarks(ls, rt, items, urls, count - 1);
      var block := PlacemarkBlock(rt, items[count - 1], urls[count - 1]);
      PlacemarksLength(ls, rt, items, urls, count - 1);
      assert WithPlacemarks(ls, rt, items, urls, count) == prev + block;
      assert (prev + block)[..|ls|] == prev[..|ls|];
    }
  }

  /** Adding a placemark leaves the lines before it as they were. */
  lemma PlacemarkLineKept(ls: seq<Line>, rt: Runtime, items: seq<Value>, urls: seq<string>, count: nat, j: nat)
    requires 0 < count <= |items| && count <= |urls|
    requires j < |WithPlacemarks(ls, rt, items, urls, count - 1)|
    ensures j < |WithPlacemarks(ls, rt, items, urls, count)|
    ensures WithPlacemarks(ls, rt, items, urls, count)[j] == WithPlacemarks(ls, rt, items, urls, count - 1)[j]
  {
    var prev := WithPlacemarks(ls, rt, items, urls, count - 1);
    assert WithPlacemarks(ls, rt, items, urls, count) == prev + PlacemarkBlock(rt, items[count - 1], urls[count - 1]);
  }

  /** The last placemark added is the eight lines at the end. */
  lemma PlacemarkLineLast(ls: seq<Line>, rt: Runtime, items: seq<Value>, urls: seq<string>, count: nat, d: nat)
    requires 0 < count <= |items| && count <= |urls| && d < 8
    ensures |ls| + 8 * (count - 1) + d < |WithPlacemarks(ls, rt, items, urls, count)|
    ensures WithPlacemarks(ls, rt, items, urls, count)[|ls| + 8 * (count - 1) + d] ==
      PlacemarkBlock(rt, items[count - 1], urls[count - 1])[d]
  {
    var prev := WithPlacemarks(ls, rt, items, urls, count - 1);
    var block := PlacemarkBlock(rt, items[count - 1], urls[count - 1]);
    PlacemarksLength(ls, rt, items, urls, count - 1);
    assert WithPlacemarks(ls, rt, items, urls, count) == prev + block;
    assert (prev + block)[|prev| + d] == block[d];
  }

  /** Line d of item i's placemark is line 8i + d after `ls`. */
  lemma {:induction false} PlacemarkLineAt(ls: seq<Line>, rt: Runtime, items: seq<Value>, urls: seq<string>, count: nat, i: nat, d: nat)
    requires i < count <= |items| && count <= |urls| && d < 8
    ensures |ls| + 8 * i + d < |WithPlacemarks(ls, rt, items, urls, count)|
    ensures WithPlacemarks(ls, rt, items, urls, count)[|ls| + 8 * i + d] == PlacemarkBlock(rt, items[i], urls[i])[d]
  {
    if i == count - 1 {
      PlacemarkLineLast(ls, rt, items, urls, count, d);
    } else {
      PlacemarkLineAt(ls, rt, items, urls, count - 1, i, d);
      PlacemarkLineKept(ls, rt, items, urls, count, |ls| + 8 * i + d);
    }
  }

  /** The placemarks of the first `count` items come after `ls`, eight
      lines each, item i's at offset 8i, referring to style `urls[i]`. */
  lemma PlacemarksShape(ls: seq<Line>, rt: Runtime, items: seq<Value>, urls: seq<string>, count: nat)
    requires count <= |items| && count <= |urls|
    ensures |WithPlacemarks(ls, rt, items, urls, count)| == |ls| + 8 * count
    ensures WithPlacemarks(ls, rt, items, urls, count)[..|ls|] == ls
    ensures forall i, d :: 0 <= i < count && 0 <= d < 8 ==>
      WithPlacemarks(ls, rt, items, urls, count)[|ls| + 8 * i + d] == PlacemarkBlock(rt, items[i], urls[i])[d]
  {
    PlacemarksLength(ls, rt, items, urls, count);
    forall i, d | 0 <= i < count && 0 <= d < 8
      ensures WithPlacemarks(ls, rt, items, urls, count)[|ls| + 8 * i + d] == PlacemarkBlock(rt, items[i], urls[i])[d]
    {
      PlacemarkLineAt(ls, rt, items, urls, count, i, d);
    }
  }

  /** The track's lines are the header, the placemarks of the items with
      their styles, and the two closing lines. */
  lemma TrackParts(rt: Runtime, items: seq<Value>)
    requires NoNullish(items)
    ensures |StyleLines(rt)| == 122
    ensures |WithPlacemarks(StyleLines(rt), rt, items, StyleUrls(rt, items), |items|)| == 122 + 8 * |items|
    ensures WithPlacemarks(StyleLines(rt), rt, items, StyleUrls(rt, items), |items|)[..122] == StyleLines(rt)
    ensures TrackLines(rt, items) ==
      WithPlacemarks(StyleLines(rt), rt, items, StyleUrls(rt, items), |items|) + [Line(0, "</Document>"), Line(-4, "</kml>")]
  {
    StyleLinesShape(rt);
    PlacemarksLength(StyleLines(rt), rt, items, StyleUrls(rt, items), |items|);
  }

  /** Line d of item i's placemark is line 122 + 8i + d of its track. */
  lemma TrackPlacemarkLine(rt: Runtime, items: seq<Value>, i: nat, d: nat)
    requires NoNullish(items) && i < |items| && d < 8
    ensures 122 + 8 * i + d < |TrackLines(rt, items)|
    ensures TrackLines(rt, items)[122 + 8 * i + d] == PlacemarkBlock(rt, items[i], StyleUrl(rt, items, i))[d]
  {
    TrackParts(rt, items);
    var urls := StyleUrls(rt, items);
    var body := WithPlacemarks(StyleLines(rt), rt, items, urls, |items|);
    PlacemarkLineAt(StyleLines(rt), rt, items, urls, |items|, i, d);
    assert TrackLines(rt, items)[122 + 8 * i + d] == body[122 + 8 * i + d];
  }

  /** A track of n items is the 122 header lines, n placemarks of eight
      lines each, item i's referring to StyleUrl(rt, items, i), and the two
      closing lines, `</kml>` being the last. */
  lemma TrackShape(rt: Runtime, items: seq<Value>)
    requires NoNullish(items)
    ensures |TrackLines(rt, items)| == 122 + 8 * |items| + 2
    ensures TrackLines(rt, items)[..122] == StyleLines(rt)
    ensures forall i, d :: 0 <= i < |items| && 0 <= d < 8 ==>
      TrackLines(rt, items)[122 + 8 * i + d] == PlacemarkBlock(rt, items[i], StyleUrl(rt, items, i))[d]
    ensures TrackLines(rt, items)[122 + 8 * |items|..] == [Line(0, "</Document>"), Line(-4, "</kml>")]
  {
    TrackParts(rt, items);
    var body := WithPlacemarks(StyleLines(rt), rt, items, StyleUrls(rt, items), |items|);
    assert TrackLines(rt, items)[..122] == body[..122];
    forall i, d | 0 <= i < |items| && 0 <= d < 8
      ensures TrackLines(rt, items)[122 + 8 * i + d] == PlacemarkBlock(rt, items[i], StyleUrl(rt, items, i))[d]
    {
      TrackPlacemarkLine(rt, items, i, d);
    }
  }

  /** An empty track is the header and the closing lines, with no placemark. */
  lemma EmptyTrack(rt: Runtime)
    ensures TrackLines(rt, []) == StyleLines(rt) + [Line(0, "</Document>"), Line(-4, "</kml>")]
  {
  }

  /** The closing `</kml>` of a track sits at indentation -4, which
      indentStr renders with no spaces at all. */
  lemma TrackClosingUnindented()
    ensures RenderLine(Line(-4, "</kml>")) == "</kml>\r\n"
  {
    IndentedShape("</kml>" + LineEnding, -4);
  }

  /** The style each placemark refers to: the normal style for the last
      item; for the others "#bearing" followed by the bucket numeral (0 to
      15) of the bearing to the next item, or "#bearingNaN" when a
      coordinate is not a number. */
  lemma StyleUrlChoice(rt: Runtime, items: seq<Value>, index: nat)
    requires NoNullish(items) && index < |items|
    ensures index + 1 == |items| ==> StyleUrl(rt, items, index) == NormalStyleUrl
    ensures index + 1 < |items| && ItemBearing(rt, items[index], items[index + 1]).None? ==>
      StyleUrl(rt, items, index) == "#bearingNaN"
    ensures index + 1 < |items| && ItemBearing(rt, items[index], items[index + 1]).Some? ==>
      var k := Bearing.Bucket(ItemBearing(rt, items[index], items[index + 1]).value);
      0 <= k < BucketCount && StyleUrl(rt, items, index) == "#bearing" + NatToStr(k)
  {
    if index + 1 < |items| {
      var b := ItemBearing(rt, items[index], items[index + 1]);
      if b.Some? {
        Bearing.BucketRange(b.value);
      }
    }
  }

  /** The styles of all placemarks: one per item, the normal style for the
      last, and for every other item "#bearingNaN" exactly when the bearing
      to the next item is not a number, otherwise a direction style
      "#bearing0" to "#bearing15". */
  lemma StyleUrlsChoice(rt: Runtime, items: seq<Value>)
    requires NoNullish(items)
    ensures |StyleUrls(rt, items)| == |items|
    ensures items != [] ==> StyleUrls(rt, items)[|items| - 1] == NormalStyleUrl
    ensures forall i :: 0 <= i < |items| - 1 ==>
      (StyleUrls(rt, items)[i] == "#bearingNaN" <==> ItemBearing(rt, items[i], items[i + 1]).None?)
    ensures forall i :: 0 <= i < |items| - 1 && ItemBearing(rt, items[i], items[i + 1]).Some? ==>
      IsDirectionStyleUrl(StyleUrls(rt, items)[i])
  {
    var urls := StyleUrls(rt, items);
    if items != [] {
      StyleUrlChoice(rt, items, |items| - 1);
      assert urls[|items| - 1] == StyleUrl(rt, items, |items| - 1);
    }
    forall i | 0 <= i < |items| - 1
      ensures urls[i] == "#bearingNaN" <==> ItemBearing(rt, items[i], items[i + 1]).None?
      ensures ItemBearing(rt, items[i], items[i + 1]).Some? ==> IsDirectionStyleUrl(urls[i])
    {
      DirectionStyleUrl(rt, items, i);
      assert urls[i] == StyleUrl(rt, items, i);
    }
  }

  /** A reference to one of the sixteen direction styles. */
  predicate IsDirectionStyleUrl(url: string) {
    exists k: nat :: k < BucketCount && url == "#bearing" + NatToStr(k)
  }

  /** One step of `StyleUrlsChoice`: the style of a placemark with a next item. */
  lemma DirectionStyleUrl(rt: Runtime, items: seq<Value>, i: nat)
    requires NoNullish(items) && i + 1 < |items|
    ensures StyleUrl(rt, items, i) == "#bearingNaN" <==> ItemBearing(rt, items[i], items[i + 1]).None?
    ensures ItemBearing(rt, items[i], items[i + 1]).Some? ==>
      IsDirectionStyleUrl(StyleUrl(rt, items, i))
  {
    StyleUrlChoice(rt, items, i);
    var b := ItemBearing(rt, items[i], items[i + 1]);
    if b.Some? {
      var k := Bearing.Bucket(b.value);
      var url := StyleUrl(rt, items, i);
      assert url == "#bearing" + NatToStr(k);
      assert url[8] == NatToStr(k)[0];
      var nan := "#bearingNaN";
      assert nan[8] == 'N';
    }
  }

  /** The normal style's id is the normal style URL without its '#'. */
  lemma NormalStyleDeclared(rt: Runtime)
    ensures |StyleLines(rt)| > 3 && StyleLines(rt)[3].text == "<Style id=\"" + NormalStyleUrl[1..] + "\">"
  {
    StyleLinesShape(rt);
  }

  /** The id of direction style k is "#bearing" followed by the numeral of
      k, without its '#'. */
  lemma BearingStyleDeclared(rt: Runtime, k: nat)
    requires k < BucketCount
    ensures |StyleLines(rt)| > 10 + 7 * k && StyleLines(rt)[10 + 7 * k].text == "<Style id=\"" + ("#bearing" + NatToStr(k))[1..] + "\">"
  {
    StyleLinesDirections(rt);
    BearingStyleNames(rt, k);
    var url := "#bearing" + NatToStr(k);
    assert url[1..] == "bearing" + NatToStr(k);
  }

  /** Every style a placemark refers to when all coordinates are numbers is
      declared in the header: the normal style at line 3 for the last
      item, otherwise the direction style of its bucket. */
  lemma StyleUrlDeclared(rt: Runtime, items: seq<Value>, index: nat)
    requires NoNullish(items) && index < |items|
    requires index + 1 < |items| ==> ItemBearing(rt, items[index], items[index + 1]).Some?
    ensures StyleUrl(rt, items, index) != [] && StyleUrl(rt, items, index)[0] == '#'
    ensures exists j :: (0 <= j < |StyleLines(rt)| &&
      StyleLines(rt)[j].text == "<Style id=\"" + StyleUrl(rt, items, index)[1..] + "\">")
  {
    StyleLinesShape(rt);
    StyleUrlChoice(rt, items, index);
    if index + 1 == |items| {
      NormalStyleDeclared(rt);
    } else {
      var k := Bearing.Bucket(ItemBearing(rt, items[index], items[index + 1]).value);
      BearingStyleDeclared(rt, k);
    }
  }


  /** The rendering of a prefix of the lines is a prefix of the rendering. */
  lemma RenderPrefix(ls: seq<Line>, k: nat)
    requires k <= |ls|
    ensures |Render(ls[..k])| <= |Render(ls)|
    ensures Render(ls)[..|Render(ls[..k])|] == Render(ls[..k])
  {
    assert ls == ls[..k] + ls[k..];
    RenderAppend(ls[..k], ls[k..]);
  }

  /** Both documents open with the XML declaration, the `kml` element and
      the `Document` element. */
  lemma DocumentsOpenAlike(rt: Runtime, name: string, description: string, longitude: string, latitude: string, items: seq<Value>)
    requires NoNullish(items)
    ensures PointLines(name, description, longitude, latitude)[..3] == OpenDocument()
    ensures |TrackLines(rt, items)| >= 3 && TrackLines(rt, items)[..3] == OpenDocument()
  {
    TrackShape(rt, items);
    assert TrackLines(rt, items)[..3] == TrackLines(rt, items)[..122][..3];
    StyleLinesShape(rt);
  }

  /** Two texts that differ at one position are different. */
  lemma DiffersAt(a: string, b: string, i: nat)
    requires i < |a| && i < |b| && a[i] != b[i]
    ensures a != b
  {
  }

  /** The single-point document has twelve lines. Its name, description and
      coordinates lines carry the given texts verbatim, the coordinates as
      longitude, a comma, then latitude. */
  lemma PointLinesShape(name: string, description: string, longitude: string, latitude: string)
    ensures var ls := PointLines(name, description, longitude, latitude);
      |ls| == 12 && ls[..3] == OpenDocument() &&
      ls[3] == Line(8, "<Placemark>") &&
      ls[4] == Line(12, "<name>" + name + "</name>") &&
      ls[5] == Line(12, "<description>" + description + "</description>") &&
      ls[6] == Line(12, "<Point>") &&
      ls[7] == Line(16, "<coordinates>" + longitude + "," + latitude + "</coordinates>") &&
      ls[8] == Line(12, "</Point>") &&
      ls[9] == Line(8, "</Placemark>") &&
      ls[10] == Line(4, "</Document>") &&
      ls[11] == Line(0, "</kml>")
  {
  }

  /** A text that starts with `pre` differs from `b` when `pre` does at
      position i. */
  lemma PrefixDiffers(pre: string, rest: string, b: string, i: nat)
    requires i < |pre| && i < |b| && pre[i] != b[i]
    ensures pre + rest != b
  {
    assert (pre + rest)[i] == pre[i];
  }

  /** The single-point document holds exactly one `<Placemark>` line. */
  lemma PointHasOnePlacemark(name: string, description: string, longitude: string, latitude: string)
    ensures forall j :: 0 <= j < |PointLines(name, description, longitude, latitude)| ==>
      (PointLines(name, description, longitude, latitude)[j].text == "<Placemark>" <==> j == 3)
  {
    var ls := PointLines(name, description, longitude, latitude);
    PointLinesShape(name, description, longitude, latitude);
    var p := "<Placemark>";
    forall j | 0 <= j < |ls|
      ensures ls[j].text == p <==> j == 3
    {
      if j == 0 {
        assert ls[..3][0] == Line(0, XmlDeclaration);
        DiffersAt(XmlDeclaration, p, 1);
      } else if j == 1 {
        assert ls[..3][1] == Line(0, KmlOpen);
        DiffersAt(KmlOpen, p, 1);
      } else if j == 2 {
        assert ls[..3][2] == Line(4, "<Document>");
        DiffersAt("<Document>", p, 1);
      } else if j == 4 {
        PrefixDiffers("<name>" + name, "</name>", p, 1);
      } else if j == 5 {
        PrefixDiffers("<description>" + description, "</description>", p, 1);
      } else if j == 6 {
        DiffersAt("<Point>", p, 2);
      } else if j == 7 {
        PrefixDiffers("<coordinates>" + longitude + "," + latitude, "</coordinates>", p, 1);
      } else if j == 8 {
        DiffersAt("</Point>", p, 1);
      } else if j == 9 {
        DiffersAt("</Placemark>", p, 1);
      } else if j == 10 {
        DiffersAt("</Document>", p, 1);
      } else if j == 11 {
        DiffersAt("</kml>", p, 1);
      }
    }
  }

  /** A document whose last line is `</kml>` at indentation zero or less
      ends with "</kml>\r\n"; in particular it is not empty. */
  lemma RenderEndsWithKmlClose(ls: seq<Line>)
    requires ls != [] && ls[|ls| - 1].text == "</kml>" && ls[|ls| - 1].indent <= 0
    ensures |Render(ls)| >= 8 && Render(ls)[|Render(ls)| - 8..] == "</kml>\r\n"
  {
    IndentedShape("</kml>" + LineEnding, ls[|ls| - 1].indent);
  }

  /** The point document for valid options starts with the rendered opening
      and ends with "</kml>\r\n", so kml.generate's empty result marks
      exactly the options it does not render. */
  lemma PointTextFrame(rt: Runtime, options: Value)
    requires ValidPointOptions(options)
    ensures var t := PointText(rt, options);
      |Render(OpenDocument())| <= |t| && t[..|Render(OpenDocument())|] == Render(OpenDocument()) &&
      |t| >= 8 && t[|t| - 8..] == "</kml>\r\n"
  {
    var p := options.props["position"].props;
    var ls := PointLines(p["name"].s, p["description"].s,
                         rt.numberToString(p["longitude"].n), rt.numberToString(p["latitude"].n));
    assert ls[..3] == OpenDocument();
    RenderPrefix(ls, 3);
    RenderEndsWithKmlClose(ls);
  }

  /** The same for the track document, whatever its items. */
  lemma TrackTextFrame(rt: Runtime, items: seq<Value>)
    requires NoNullish(items)
    ensures var t := Render(TrackLines(rt, items));
      |Render(OpenDocument())| <= |t| && t[..|Render(OpenDocument())|] == Render(OpenDocument()) &&
      |t| >= 8 && t[|t| - 8..] == "</kml>\r\n"
  {
    var ls := TrackLines(rt, items);
    DocumentsOpenAlike(rt, "", "", "", "", items);
    RenderPrefix(ls, 3);
    RenderEndsWithKmlClose(ls);
  }
}
