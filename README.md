# KML track documents and object paths, in Dafny

This project models the computational core of a command-line client for a
scooter vendor's cloud service. The core has two parts.

- `src/kml.js` turns a position, or a track of positions, into a KML 2.2
  document.
  - `kml.generate` writes a single placemark after a series of `typeof`
    guards.
  - `kml.generateTrack` writes a fixed header. The header holds a normal
    style and 16 direction styles named `bearing0` to `bearing15`. After
    it comes one placemark per track item. Each placemark refers to the
    normal style if it is the last item. Otherwise it refers to the
    direction style of the rhumb-line bearing to the next item, put into
    one of 16 buckets by `Math.ceil(bearing / 22.5) % 16`.
  - Both builders append `indentStr(text + "\r\n", lineIndent)` line by
    line while they move `lineIndent` up and down.
- `src/util.js` resolves a dotted object path with `util.resolve`.
  `util.filter` resolves one path, or resolves a list of paths and joins
  the values with `;`.

The model has five modules.

- `Js` (`js.dfy`) models the JavaScript values the core reads.
  - It covers `typeof`, truthiness, property reads, `+` string coercion,
    number coercion, `split` and `join`.
  - A TypeError that the runtime throws becomes `Result.TypeError`.
  - NaN is `None` in `Option<real>`.
  - The numeric library is passed in as a `Runtime` value: number
    formatting, string parsing, division, `Math.tan`, `Math.log` and
    `Math.atan2`. The model constrains only what the core needs:
    - `atan2` returns a value in [-π, π];
    - division by a nonzero number is real division;
    - a natural number up to 2^53 prints as its decimal numeral.
- `Bearing` (`bearing.dfy`) models `radians`, `degrees`, `getBearing` and
  the bucket, all over `real`.
  - JavaScript's `%` truncates toward zero. It is written out as
    `RealRem` and `IntRem`.
  - `Math.ceil` is written with `Floor`.
- `Kml` (`kml.dfy`) models `indentStr` and the two builders as methods.
  - They keep the source's `data` string and `lineIndent` counter, and its
    two loops.
  - Each method is proved to produce `Render` of a specification: a
    sequence of `Line(indent, text)` values.
- `KmlProperties` (`kml_properties.dfy`) proves what those specifications
  promise:
  - where each block sits;
  - which style every placemark refers to;
  - that every style referred to is declared;
  - what the documents start and end with.
- `Util` (`util.dfy`) models `util.resolve` as a left fold over the split
  path. It models `util.filter` as a method with its index loop.

The indentation of the output is reproduced as the code writes it.
- Line 221 of `src/kml.js` decrements once more than it incremented.
- There is no decrement between the icon's `href` and `</Icon>` (line 231).
- The closing `</kml>` of a track is written at indentation -4, which
  `indentStr` renders without spaces.

No claim is made that opening and closing tags align. Nor is any claim
made that the output is escaped XML: names and descriptions are inserted
verbatim.

The code and its documentation disagree in one place. In `kml.generate`,
`typeof null` is `"object"`, so a `null` options value or a `null` position
passes the guards. The property read that follows then throws. The code
does not return `""` for these inputs, and the model follows the code:
`Kml.Generate` returns `TypeError` for them.

## Model

| member | source | states |
|---|---|---|
| Js.TypeOf | src/kml.js:130-141 | `typeof` is "object" exactly for null, arrays and objects; "string" exactly for strings; "number" exactly for numbers |
| Js.Get | src/util.js:44 | a property read on a value that is not null or undefined; specified by `Js.GetElement` and `Js.FieldIsGet` |
| Js.GetElement | src/util.js:44 | reading an array or a string at the printed numeral of an index inside it answers that element, or that character as a one-character string |
| Js.ToNumber | src/kml.js:42 | the number coercion that `n * (Math.PI / 180)` applies to a coordinate; specified by `Kml.ItemBearing` |
| Js.Truthy | src/util.js:44 | truthiness, as `prev ? … : null` tests it; specified by `Js.FalsyValues` |
| Js.FalsyValues | src/util.js:44 | the falsy values are exactly undefined, null, false, 0 and ""; a value whose `typeof` is "object" is truthy exactly when it is not null |
| Js.ToStr | src/kml.js:257-261 | the text `+` makes of a value; specified by `Js.ToStrCases` |
| Js.ToStrCases | src/util.js:69 | a natural number up to 2^53 becomes its decimal numeral, a string itself, and an array of strings their join with "," |
| Js.FieldIsGet | src/kml.js:257-261 | reading `name`, `description`, `latitude` or `longitude` (plain keys) is reading the object's own field, undefined on any other value |
| Js.NatToStr | src/kml.js:224 | a natural number prints as a non-empty decimal numeral without a leading zero, whose value is the number |
| Js.ArrayIndexOfNatToStr | src/util.js:44 | the printed numeral of n, used as a property key, denotes array index n |
| Js.Split | src/util.js:43 | `split` always yields at least one piece |
| Js.JoinSplit | src/util.js:43 | joining the pieces of a split with the separator gives back the text |
| Js.SplitJoin | src/util.js:43 | splitting a join of separator-free pieces gives back the pieces |
| Js.SplitConcat | src/util.js:43 | splitting `a + sep + b` is splitting `a`, then `b` |
| Bearing.Radians | src/kml.js:41-43 | a degree value in [-180, 180] becomes a radian value in [-π, π] |
| Bearing.Degrees | src/kml.js:54-56 | a radian value in [-π, π] becomes a degree value in [-180, 180] |
| Bearing.DegreesRadians | src/kml.js:41-56 | the two conversions are inverse to each other |
| Bearing.RealRem | src/kml.js:88 | JavaScript `%` with a positive modulus: a non-negative dividend leaves a remainder in [0, y), a negative one a remainder in (-y, 0] |
| Bearing.RealRemSubtracts | src/kml.js:88 | the remainder is the dividend less the modulus times the quotient truncated toward zero |
| Bearing.Trunc | src/kml.js:88 | truncation toward zero, which JavaScript's `%` uses, lies within one of its argument on the side of zero |
| Bearing.IntRem | src/kml.js:252 | JavaScript `%` on integers takes the sign of the dividend and stays below the modulus in size; on non-negative dividends it is the mathematical remainder |
| Bearing.WrapLongitude | src/kml.js:80-86 | the wrapped difference is the difference or it shifted by one full turn; it is unchanged within [-π, π] and lands in [-π, π] whenever the difference is within two turns |
| Bearing.LongitudeDelta | src/kml.js:71-86 | for two longitudes in [-180, 180], the wrapped difference lies in [-π, π] |
| Bearing.LatitudeDelta | src/kml.js:78 | the difference of the stretched latitudes, from the runtime's `tan`, division and `log`; specified by `Bearing.LatitudeDeltaLevel` |
| Bearing.LatitudeDeltaLevel | src/kml.js:78 | two fixes at the same latitude give `log(1)` whenever the tangent is nonzero |
| Bearing.Normalize | src/kml.js:88 | `(d + 360) % 360` of an angle in [-180, 180] lies in [0, 360), adding a full turn to negative angles only |
| Bearing.GetBearing | src/kml.js:70-89 | the bearing always lies in [0, 360), given that `Math.atan2` lies in [-π, π] |
| Bearing.Ceil | src/kml.js:252 | `Math.ceil` is the least integer at or above its argument |
| Bearing.Bucket | src/kml.js:252 | `Math.ceil(bearing / 22.5) % 16`; specified by `Bearing.BucketRange` and `Bearing.BucketWedge` |
| Bearing.BucketRange | src/kml.js:252 | every bearing in [0, 360) falls in a bucket 0 to 15 |
| Bearing.BucketWedge | src/kml.js:252 | bucket k (1 to 15) is exactly the wedge (22.5 (k-1), 22.5 k]; the wedge (337.5, 360) goes to bucket 0 |
| Bearing.BucketZero | src/kml.js:252 | bearing 0 goes to bucket 0 |
| Bearing.BucketBoundaries | src/kml.js:252 | 0 and 359.999 go to bucket 0, 22.5 to bucket 1, 337.5 to bucket 15 |
| Kml.IndentStr | src/kml.js:99-110 | the loop returns `Indented(str, indent)`: the padding followed by `str` |
| Kml.IndentedShape | src/kml.js:99-110 | the result is max(indent, 0) spaces followed by `str`, and `str` itself when indent is zero or less |
| Kml.RenderLineShape | src/kml.js:147 | every emitted line is its spaces, its text and then "\r\n" |
| Kml.RenderAppend | src/kml.js:147-172 | the text of consecutive blocks of lines is the concatenation of their texts |
| Kml.RenderLastLine | src/kml.js:126 | a document of at least one line ends with "\r\n" |
| Kml.AppendLine | src/kml.js:152 | one `data += indentStr(text + lineEnding, lineIndent)` appends the rendering of that line |
| Kml.WriteHeader | src/kml.js:146-153 | the header is the XML declaration, the `kml` element and `<Document>`, and it leaves `lineIndent` at 8 |
| Kml.WriteNormalStyle | src/kml.js:207-221 | writes the seven lines of the `normalPlacemark` style with the `track-none.png` icon, and leaves `lineIndent` at 4 |
| Kml.WriteBearingStyle | src/kml.js:224-236 | one pass of the style loop writes the seven lines of direction style `index` and leaves `lineIndent` where it was |
| Kml.WriteStyles | src/kml.js:199-237 | everything before the placemark loop, across its 16 passes, is `StyleLines`, with `lineIndent` back at 4 |
| Kml.WriteTrackOpening | src/kml.js:199-221 | the opening of a track is the header followed by the normal style, at `lineIndent` 4 |
| Kml.ItemBearing | src/kml.js:249 | the bearing from one item to the next lies in [0, 360), and is NaN exactly when one of the four coordinates coerces to NaN |
| Kml.BucketText | src/kml.js:252 | the bucket text is "NaN" for a NaN bearing, and otherwise the decimal numeral of the bucket, which lies in 0..15 |
| Kml.StyleUrl | src/kml.js:241-253 | the style of one placemark; specified by `KmlProperties.StyleUrlChoice` |
| Kml.ChooseStyle | src/kml.js:241-253 | the last item gets `#normalPlacemark`; any other item gets `#bearing` plus the bucket text of the bearing to the next item; a null or undefined item or next item throws |
| Kml.WritePlacemark | src/kml.js:255-266 | writes the eight placemark lines of one item and leaves `lineIndent` where it was |
| Kml.WriteItemPlacemark | src/kml.js:241-266 | one pass of the placemark loop writes the placemark of item `index` with its chosen style, or throws only when some item is null or undefined |
| Kml.WritePlacemarks | src/kml.js:239-267 | the loop throws exactly when some item is null or undefined; otherwise it writes the placemarks of all items in order, each with its `StyleUrl` |
| Kml.Generate | src/kml.js:124-173 | "" when options, position, name, description, latitude or longitude has the wrong type; TypeError on a null options or position; otherwise the rendering of the point document |
| Kml.PointLines | src/kml.js:146-172 | the lines of the point document; specified by `KmlProperties.PointLinesShape` and `KmlProperties.PointHasOnePlacemark` |
| Kml.StyleLines | src/kml.js:199-237 | the 122 header lines of a track; specified by `KmlProperties.StyleLinesShape` and `KmlProperties.StyleLinesDirections` |
| Kml.PlacemarkBlock | src/kml.js:255-266 | the eight lines of one placemark; specified by `KmlProperties.PlacemarkBlockShape` |
| Kml.TrackLines | src/kml.js:186-275 | the lines of a track document; specified by `KmlProperties.TrackShape` and `KmlProperties.TrackParts` |
| Kml.PointDocument | src/kml.js:146-172 | the writing part of `kml.generate` produces exactly the rendering of `PointLines` |
| Kml.GenerateTrack | src/kml.js:186-275 | "" for a non-array; TypeError when an item is null or undefined; otherwise the rendering of `TrackLines` |
| KmlProperties.BearingStylesAreBlocks | src/kml.js:223-237 | the 16 direction styles are 16 consecutive blocks appended in order |
| KmlProperties.BlocksLength | src/kml.js:223-237 | 16 - from blocks of seven lines add 7 (16 - from) lines and keep what came before |
| KmlProperties.BlocksLineAt | src/kml.js:223-237 | line d of block k sits at 7 (k - from) + d after the lines before |
| KmlProperties.BearingStylesLength | src/kml.js:223-237 | the direction styles add seven lines per direction and keep what came before |
| KmlProperties.BearingStyleLineAt | src/kml.js:223-237 | line d of direction style k sits 7 (k - from) + d lines after the lines before |
| KmlProperties.StyleLinesShape | src/kml.js:199-221 | the header has 122 lines and opens with the document header, then the `normalPlacemark` style with its `track-none.png` icon |
| KmlProperties.StyleLinesDirections | src/kml.js:223-237 | direction style k (0 to 15) opens at line 10 + 7k with `bearing<k>`, and its icon `track-<k>.png` is at line 13 + 7k |
| KmlProperties.BearingStyleNames | src/kml.js:224-230 | the style id and the icon of direction k carry the decimal numeral of k |
| KmlProperties.PlacemarkBlockShape | src/kml.js:255-266 | a placemark is eight lines, opening with `<Placemark>`, with its `styleUrl` in line 6 and `</Placemark>` last |
| KmlProperties.PlacemarksLength | src/kml.js:239-267 | n placemarks add 8n lines after what came before |
| KmlProperties.PlacemarkLineKept | src/kml.js:239-267 | a further placemark leaves every earlier line as it was |
| KmlProperties.PlacemarkLineLast | src/kml.js:255-266 | the placemark added last is the last eight lines |
| KmlProperties.PlacemarkLineAt | src/kml.js:239-267 | line d of item i's placemark sits at 8i + d after what came before |
| KmlProperties.PlacemarksShape | src/kml.js:239-267 | the placemarks come in input order, eight lines each, item i's with style `urls[i]` |
| KmlProperties.TrackParts | src/kml.js:186-275 | a track is the 122 header lines, the placemarks, then `</Document>` and `</kml>` |
| KmlProperties.TrackPlacemarkLine | src/kml.js:239-267 | line d of item i's placemark is line 122 + 8i + d of the track |
| KmlProperties.TrackShape | src/kml.js:186-275 | a track of n items has 122 + 8n + 2 lines: the header, n placemarks in input order with their `StyleUrl`, then the two closing lines |
| KmlProperties.EmptyTrack | src/kml.js:199-272 | an empty array gives the header and the closing lines and no placemark |
| KmlProperties.TrackClosingUnindented | src/kml.js:269-272 | the track's `</kml>`, at indentation -4, renders without spaces |
| KmlProperties.StyleUrlChoice | src/kml.js:241-253 | the last item refers to `#normalPlacemark`; every other item refers to `#bearing<k>` with k in 0..15 the bucket of the bearing to the next item, or to `#bearingNaN` when a coordinate is not a number |
| KmlProperties.StyleUrlsChoice | src/kml.js:239-253 | one style per item; the last is `#normalPlacemark`; every other is `#bearingNaN` exactly when the bearing to the next item is NaN, and otherwise one of the direction styles `#bearing0` to `#bearing15` |
| KmlProperties.DirectionStyleUrl | src/kml.js:246-253 | an item with a next item refers to `#bearingNaN` exactly when the bearing is NaN, and otherwise to a direction style |
| KmlProperties.NormalStyleDeclared | src/kml.js:208-244 | header line 3 declares the id of `#normalPlacemark` |
| KmlProperties.BearingStyleDeclared | src/kml.js:224-252 | header line 10 + 7k declares the id of `#bearing<k>` |
| KmlProperties.StyleUrlDeclared | src/kml.js:208-253 | whenever all coordinates are numbers, every style a placemark refers to is declared by some header line |
| KmlProperties.RenderPrefix | src/kml.js:147-172 | the text of the first lines of a document is a prefix of its text |
| KmlProperties.DocumentsOpenAlike | src/kml.js:147-152 | both documents open with the same three header lines |
| KmlProperties.PointLinesShape | src/kml.js:155-170 | the point document has 12 lines; name and description are copied verbatim and the coordinates are longitude, a comma, then latitude |
| KmlProperties.PointHasOnePlacemark | src/kml.js:155-165 | the point document contains exactly one `<Placemark>` line |
| KmlProperties.RenderEndsWithKmlClose | src/kml.js:170 | a document whose last line is `</kml>` at indentation 0 or less ends with "</kml>\r\n" |
| KmlProperties.PointTextFrame | src/kml.js:124-173 | a valid point document starts with the rendered header and ends with "</kml>\r\n", so it is never "" |
| KmlProperties.TrackTextFrame | src/kml.js:186-275 | every track document starts with the rendered header and ends with "</kml>\r\n" |
| Util.Step | src/util.js:44 | the `prev ? prev[curr] : null` callback; specified by `Util.WalkFromFalsy` and `Util.ResolveNoDot` |
| Util.Walk | src/util.js:43-45 | the `reduce` over the path's segments; specified by `Util.WalkAppend`, `Util.WalkFromFalsy` and `Util.WalkCollapses` |
| Util.Resolve | src/util.js:41-46 | `util.resolve`; specified by `Util.ResolveNoDot`, `Util.ResolveFalsy`, `Util.ResolveCompose` and `Util.ResolveJoined` |
| Util.WalkAppend | src/util.js:43-45 | folding over two segment lists in a row is folding over their concatenation |
| Util.WalkFromFalsy | src/util.js:44 | once a falsy value is met, the rest of the walk gives null |
| Util.WalkCollapses | src/util.js:43-45 | if any value met before the last segment is falsy, the result is null |
| Util.ResolveNoDot | src/util.js:41-46 | a path without "." resolves to `obj[path]` for a truthy `obj` and to null for a falsy one |
| Util.ResolveFalsy | src/util.js:41-46 | every path resolves to null in a falsy value |
| Util.ResolveCompose | src/util.js:41-46 | resolving `a.b` is resolving `b` in what `a` resolves to |
| Util.ResolveJoined | src/util.js:41-46 | the path joined from dot-free segments resolves by walking exactly those segments |
| Util.Texts | src/util.js:63-69 | the texts of a list of string filters, element by element |
| Util.ResolvedTexts | src/util.js:69 | element i is the string coercion of what path i resolves to |
| Util.JoinSnoc | src/util.js:63-70 | joining one more piece onto a non-empty join adds the separator and the piece |
| Util.FilterStep | src/util.js:63-70 | one pass of the loop appends ";" unless it is the first, then the next resolved value's text |
| Util.Filter | src/util.js:56-78 | an array of paths gives the values, string-coerced and joined with ";" in path order; a single path gives the resolved value itself; a non-string path throws |
| Util.FilterEmpty | src/util.js:61-70 | an empty array of paths gives "" |
| Util.OccurrencesAppend | src/util.js:66 | separators in a concatenation add up |
| Util.OccurrencesFree | src/util.js:66 | a text without the separator holds none |
| Util.JoinSeparators | src/util.js:63-67 | k pieces without ";" join with exactly k - 1 separators |
| Util.FilterSplit | src/util.js:63-70 | for k paths whose values print without ";", the filtered text holds exactly k - 1 separators and splits back into the k values in path order |

## Left out

- File I/O (`util.saveFile` and `util.loadFile` in `src/util.js`), the command modules, network calls, pagination and console output are not part of this model.
- Floating point is modelled as real arithmetic. `Math.tan`, `Math.log` and `Math.atan2` are runtime parameters. NaN or an infinity arising inside them is not represented, nor is rounding.
- Kml.ItemBearing: the runtime's division is constrained only for a nonzero divisor. At src/kml.js:78 both tangents can be 0, for two fixes at latitude -90 if the doubles come out exact. JavaScript then computes log(0/0) = NaN and the placemark refers to `#bearingNaN`. The model leaves 0/0 to the runtime, so it picks a direction style there.
- Bearing.GetBearing: the result is stated to lie in [0, 360) only. A bearing of 0 for equal fixes and exact values for concrete coordinates depend on floating point.
- Number formatting and parsing are runtime parameters. The only fact the model asks of them is that natural numbers up to 2^53 print as their decimal numerals. Larger ones are left to the runtime: JavaScript may print them as rounded digits padded with zeros (2^64 prints as "18446744073709552000"), and from 10^21 on in exponent notation. So a coordinate's text is whatever the runtime prints.
- Js.Get, Js.GetElement: strings are sequences of Unicode code points, while JavaScript's `length` and index reads count UTF-16 code units. On characters outside the Basic Multilingual Plane they differ: `"😀".length` is 2 in JavaScript and 1 here, and `"😀"["0"]` is a lone surrogate in JavaScript but the whole character here.
- Js.Get: prototype properties and methods (`toString`, `constructor` and so on) are not modelled. So `util.resolve` through such a key reads undefined.
- Js.ToStr: arrays are joined with "," and objects print as "[object Object]". Custom `toString` methods are not modelled.
- Util.Filter: any non-string path, including a non-string element of the array, throws TypeError, as `split` on it would. A `String` object is not modelled.
- Kml.Generate, Kml.GenerateTrack: each builder is split into section writers. The writers keep the source's order of appends and its `lineIndent` updates, one method per block, the loops as loops.
- XML escaping and well-formedness are not claimed, since the code does not escape. Neither is alignment of closing tags.
