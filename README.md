# mapbox-generator banner script, modelled in Dafny

The script `main.py` renders one map banner for each Mapbox style id listed in
its settings. The run goes as follows:

- It checks four settings: START_POINT, END_POINT, MAPBOX_TOKEN and STYLES.
- It parses the comma-separated style list.
- It asks the Directions API for the walking route between the two points.
- It builds a GeoJSON overlay that draws the route twice: a white outline, then
  a red line on top.
- It builds the two pin markers, the center/zoom string and the size string.
- It takes one timestamp.
- For each style, in list order, it requests a static image. A 200 response is
  saved as `banner-map_<short name>_<timestamp>.png`. Any other response is
  reported, and the loop moves on to the next style.

The model follows the script part by part. Each module below covers one part:

- `Config`: the fail-fast settings checks (main.py:15-20).
- `Text`: Python's `str.split` with a one-character separator, and `str.strip()`.
  Strip is modelled as CPython's two index scans.
- `Styles`: the style-list comprehension, the short name `style_id.split("/")[-1]`,
  and the output file name.
- `Decimal` and `Timestamp`: numerals, zero padding and `strftime("%Y%m%d_%H%M%S")`.
- `Overlay`: the GeoJSON feature collection.
- `Request`: the Directions URL, the markers, the center and size strings, and
  the static-image URL. Each has a decoder that reads its parts back, and a
  round-trip lemma.
- `Render`: the per-style loop, written as a method with a loop over the style
  ids (`RenderStyles`), and the whole script (`Run`). Both are proved against
  recursive specification functions. Those functions are:
  - `StaticUrls`: the requests;
  - `SavedFiles`: the files written;
  - `EventLog`: the lines printed.

Effects become data:

- The HTTP responses are an input sequence, one response per style.
- The clock reading is an input.
- The files written are returned as (name, bytes) pairs.
- The printed lines are returned as an event log.
- The requests made are returned as URL strings.

An empty style list is not a configuration error. main.py:19 checks only
`not STYLES`, so a value made only of whitespace and commas, such as `" , "`,
passes the check and parses to no styles. The loop then does nothing.
`Config.Validate` states that such a value passes, and `Styles.ParseStylesBlank`
states that it parses to no styles.

## Model

| member | source | states |
|---|---|---|
| `Config.Validate` | main.py:15-20 | Each of the three errors is returned exactly when its setting is missing (None or "") and every earlier check passed. Pass is returned exactly when all four settings are present. |
| `Config.PointsCheckedFirst` | main.py:15-16 | A missing start or end point is reported whatever the token and style list are. |
| `Config.TokenCheckedBeforeStyles` | main.py:17-20 | With both points set, a missing token is reported whatever the style list is. |
| `Config.Message` | main.py:16-20 | The text of each `RuntimeError`; `Config.MessagesDistinct` states that the three differ. |
| `Config.MessagesDistinct` | main.py:16-20 | The three error messages are pairwise different. |
| `Text.Split` | main.py:23 | `str.split(sep)` returns at least one piece, and no piece contains the separator. |
| `Text.SplitSingle` | main.py:23 | There is exactly one piece iff the separator does not occur. |
| `Text.SplitAround` | main.py:23 | The pieces of `a + sep + b` are the pieces of `a` followed by the pieces of `b`. |
| `Text.SplitPair` | main.py:23 | Two separator-free parts joined by the separator split back into exactly those two. |
| `Text.JoinSplit` | main.py:23 | Joining the pieces with the separator gives back the original string. |
| `Text.SplitJoin` | main.py:23 | Splitting a join of separator-free pieces gives back the pieces. |
| `Text.SplitLast` | main.py:90 | The last piece is a suffix of the string. It is preceded by the separator when the string contains one, and is the whole string otherwise. |
| `Text.SkipSpace` | main.py:23 | The left scan of `strip()` stops at the first non-whitespace position, and everything before it is whitespace. |
| `Text.SkipSpaceBack` | main.py:23 | The right scan stops after the last non-whitespace character, never below the left bound, and everything after it is whitespace. |
| `Text.StripBounds` | main.py:23 | The cut points bracket a middle that is empty or starts and ends with non-whitespace, with only whitespace outside. |
| `Text.Strip` | main.py:23 | `strip()` is empty iff the string is all whitespace. Otherwise its ends are non-whitespace. It adds no character. |
| `Text.StripUnique` | main.py:23 | Any split of the string into whitespace, a trimmed middle and whitespace has `strip()` as that middle. |
| `Styles.Kept` | main.py:23 | The comprehension keeps at most one id per piece, and every id it keeps is non-empty, stripped and comma-free. |
| `Styles.ParseStyles` | main.py:23 | Every parsed style id is non-empty, has no surrounding whitespace and contains no comma. |
| `Styles.KeptAppend` | main.py:23 | The comprehension over two lists of pieces is the comprehension over each, concatenated in order. |
| `Styles.ParseStylesAround` | main.py:23 | The ids of `a + "," + b` are the ids of `a` followed by the ids of `b`: entries are independent and keep their order. |
| `Styles.ParseStylesEntry` | main.py:23 | A single entry gives nothing when it is whitespace-only, and its stripped text otherwise. |
| `Styles.StripStyleId` | main.py:23 | Stripping an already-clean id leaves it unchanged. |
| `Styles.ParseStylesPadded` | main.py:23 | Whitespace around a clean entry is dropped. |
| `Styles.ParseStylesJoin` | main.py:23 | Parsing `",".join(ids)` gives back any list of clean ids. |
| `Styles.ParseStylesClean` | main.py:23 | A clean entry parses to itself alone. |
| `Styles.ParseStylesTrailingComma` | main.py:23 | A trailing comma adds nothing to the parsed list. |
| `Styles.ParseStylesBlank` | main.py:19-23 | A STYLES value made only of whitespace and commas, which the check at line 19 lets through, parses to no styles. |
| `Styles.ParseStylesTwoPadded` | main.py:23 | An input shaped like `"a/b,  c/d ,"` parses to the two clean ids, in order. |
| `Styles.StyleName` | main.py:90 | `style_id.split("/")[-1]`; its properties are stated by `Styles.StyleNameSuffix`. |
| `Styles.StyleNameSuffix` | main.py:90 | The short name has no '/', is a suffix of the id, follows a '/' when the id has one, and is the whole id when it has none. |
| `Styles.FileName` | main.py:91 | `f"banner-map_{style_name}_{timestamp}.png"`; `Styles.FileNameRoundTrip` states that it decodes back to its short name and timestamp. |
| `Styles.FileNameHasTimestamp` | main.py:91 | Every output file name ends with `_<timestamp>.png`. |
| `Styles.FileNameFields` | main.py:91 | A decoded file name starts with `banner-map_` and ends with the decoded timestamp and `.png`. |
| `Styles.FileNameRoundTrip` | main.py:86-91 | A file name built with a 15-character timestamp decodes to exactly its short name and that timestamp. |
| `Decimal.Numeral` | main.py:83-84 | The numeral is non-empty, all digits, and has no leading zero unless it is "0". |
| `Decimal.NumeralValue` | main.py:83-84 | The numeral's digits evaluate to the number. |
| `Decimal.NumeralRoundTrip` | main.py:83-84 | Parsing the numeral gives back the number. |
| `Decimal.NumeralInjective` | main.py:83-84 | Different numbers have different numerals. |
| `Decimal.Padded` | main.py:86 | A zero-padded field has exactly the requested width and is all digits. |
| `Decimal.PaddedValue` | main.py:86 | A padded field evaluates to its number. |
| `Decimal.ValuePadded` | main.py:86 | Every digit string is the padded form of its own value. |
| `Timestamp.Format` | main.py:86 | `%Y%m%d_%H%M%S` gives 15 characters: eight digits, '_', then six digits. |
| `Timestamp.ParseFormat` | main.py:86 | Every valid clock reading is recovered from its formatted timestamp. |
| `Timestamp.FormatParse` | main.py:86 | Every string that decodes is the formatted form of what it decodes to. With `Timestamp.ParseFormat`, formatting and decoding are inverse on valid readings. |
| `Overlay.RouteOverlay` | main.py:40-69 | There are exactly two LineString features, both over the route's coordinates. First the white #ffffff outline of width 12 and opacity 0.8, then the red #ff0000 line of width 6 with no opacity. The outline is twice as wide. |
| `Overlay.OverlayDrawsRoute` | main.py:40-69 | The overlay gives back the route it was built from. |
| `Request.Marker` | main.py:74-75 | `pin-l-<shape>+ff0000(lon,lat)`; `Request.MarkerRoundTrip` states that it decodes back to its shape and coordinate. |
| `Request.StartMarker` | main.py:74 | The `circle` marker at the start point; `Request.StartMarkerRoundTrip` states what it decodes to. |
| `Request.FinishMarker` | main.py:75 | The `star` marker at the end point; `Request.FinishMarkerRoundTrip` states what it decodes to. |
| `Request.MarkerRoundTrip` | main.py:74-75 | A `pin-l-<shape>+ff0000(lon,lat)` marker decodes to its shape and coordinate, longitude first. |
| `Request.StartMarkerRoundTrip` | main.py:74 | The start marker is a red large `circle` pin at the start point. |
| `Request.FinishMarkerRoundTrip` | main.py:75 | The finish marker is a red large `star` pin at the end point. |
| `Request.MarkerFree` | main.py:74-75 | A character in none of the marker's parts is not in the marker. |
| `Request.MarkerFitsPrinted` | main.py:74-75 | The script's markers have one comma and no '/' or '?', so they fit the overlay segment. |
| `Request.CenterText` | main.py:83 | `f"{lon},{lat},{zoom}"`; `Request.CenterRoundTrip` states that it decodes back to the center and zoom. |
| `Request.CenterRoundTrip` | main.py:83 | `lon,lat,zoom` decodes to the center and zoom it was made from. |
| `Request.CenterTextZoom` | main.py:81-83 | With zoom 16, the center string ends in `,16`. |
| `Request.SizeText` | main.py:84 | `f"{w}x{h}"`; `Request.SizeRoundTrip` states that it decodes back to the width and height. |
| `Request.SizeRoundTrip` | main.py:84 | `<w>x<h>` decodes to the width and height. |
| `Request.SizeTextBanner` | main.py:82-84 | The size string is exactly `1280x800`. |
| `Request.DirectionsUrl` | main.py:30-34 | The walking Directions request; `Request.DirectionsRoundTrip` states that it decodes back to start, end and token. |
| `Request.DirectionsRoundTrip` | main.py:30-34 | The Directions request decodes to the start point, then the end point (each longitude before latitude), and the token. |
| `Request.OverlaySegment` | main.py:94 | `start,finish,geojson(overlay)`; `Request.OverlayRoundTrip` states that it decodes back to its three parts. |
| `Request.StaticPath` | main.py:93-95 | Style id, `static`, overlays, center and size joined by '/'; `Request.PathRoundTrip` states that it decodes back to them. |
| `Request.StaticUrl` | main.py:92-97 | The static-image request for one style; `Request.StaticRoundTrip` states that it decodes back to its style id and plan. |
| `Request.OverlaySegmentParts` | main.py:94 | The overlay segment splits at its commas into the two halves of the start marker, then the finish marker, then `geojson(<overlay>)`. |
| `Request.OverlaySegmentFree` | main.py:94 | The overlay segment contains no '/' or '?' that its parts lack. |
| `Request.StaticPathSegments` | main.py:93-95 | The path's '/'-segments are the style id's own segments, then `static`, the overlays, the center and the size, in that order. |
| `Request.StaticPathFree` | main.py:93-96 | With a '?'-free style id, the path holds no '?', so the '?' before the token can be found by splitting. |
| `Request.OverlayRoundTrip` | main.py:94 | The overlay segment decodes to the start marker, the finish marker and the overlay. |
| `Request.PathRoundTrip` | main.py:93-95 | The path decodes to the style id, the overlays, the center and the size. |
| `Request.StaticRoundTrip` | main.py:92-97 | The static-image request decodes to its style id and to every shared part, each in its own slot: the markers, the overlay, the center, the size and the token. |
| `Render.BannerPlan` | main.py:71-84 | The parts every static request shares: both markers, the encoded overlay, the center at zoom 16, the size `1280x800` and the token; `Render.BannerPlanFits` states that they meet the round trip's conditions. |
| `Render.BannerPlanFits` | main.py:71-84 | For printed coordinates, an encoded overlay without ',', '/' or '?' and a token without '?', the run's shared request parts can be read back. |
| `Render.FilesFor` | main.py:100-102 | One file named by the style's short name and the timestamp on a 200 response, none otherwise; `Render.SavedFilesAt` places it in the run's files. |
| `Render.EventsFor` | main.py:98-105 | The request line, then the saved line on 200 or the status and body otherwise; `Render.EventLogAt` places them in the run's log. |
| `Render.SavedFiles` | main.py:86-102 | Every file written in a run is named with that run's single timestamp. |
| `Render.EventLog` | main.py:98-105 | Each style prints exactly two lines; `Render.EventLogAt` states which. |
| `Render.EventLogAt` | main.py:98-105 | Lines 2i and 2i+1 of the log are the i-th style's request line and its saved or failure line, with the status and body of a failure. |
| `Render.RenderStyle` | main.py:89-105 | One pass of the loop makes the static request for the style. It saves one file named after the short name and the timestamp iff the status is 200. It prints the request line, then the saved line or the error line with status and body. |
| `Render.StaticUrls` | main.py:92-99 | One request per style. |
| `Render.StaticUrlsAt` | main.py:88-99 | The i-th request of the run is the static request for the i-th style. |
| `Render.StaticUrlsReadBack` | main.py:88-99 | Every request of the run decodes to its own style id, in style order, and to the shared plan. |
| `Render.RenderStyles` | main.py:88-105 | The loop returns the requests, files and lines of the specification functions for all styles, in list order. A failed style does not stop the ones after it. |
| `Render.SavedFilesAppend` | main.py:88-105 | The files for two runs of styles, one after the other, are the first run's files followed by the second's, whatever the first run's statuses were. |
| `Render.SavedFilesCount` | main.py:100-103 | Exactly one file is written per 200 response. |
| `Render.SavedFilesAt` | main.py:88-105 | The i-th style contributes its own file (only if 200) between the files of the styles before it and those after it. |
| `Render.OneOfTwoFails` | main.py:100-105 | With a 200 and then a non-200 response, exactly the first style's file is written, and the last line reports the second style's status and body. |
| `Render.SavedFilesShareTimestamp` | main.py:86-91 | Every file name of a run decodes to the run's one timestamp. |
| `Render.Run` | main.py:15-105 | Run halts with the failing setting iff the settings check fails, and before any request. Otherwise the requests are the Directions request followed by one static request per parsed style. The files and lines are those of the loop, all with the one timestamp formatted from the clock reading. |

## Left out

- The network: `requests.get` is not modelled. The Directions response and the
  static-image responses are inputs. Run requires one response per parsed style.
- `load_dotenv` and `os.environ`: the four settings are an input record of
  optional strings.
- The file system and the console: files written and lines printed are
  returned as data. Failures of `open` or `write` are not modelled.
- The clock: `datetime.now()` is an input `DateTime`.
- Float parsing of START_POINT and END_POINT (main.py:26-27) and the mean map
  center (main.py:78-80): floating point is not modelled. Coordinates are kept
  as the text Python prints for each float. `IsFloatText` only restricts that
  text to the characters such printing uses.
- Reading `routes[0].geometry.coordinates` out of the Directions JSON
  (main.py:36-37) is not modelled. The route is an input, and a missing key is
  not modelled.
- `json.dumps` and `urllib.parse.quote` (main.py:71): the encoding is a function
  parameter of `Render.BannerPlan`. The round trip of the static request
  assumes the encoded text has no ',', '/' or '?'. `quote` escapes ',' and '?',
  and this JSON contains no '/'.
- Run: does not state the Directions response's effect on anything but the
  route. It also does not model the exception that a malformed Directions
  response raises, nor the `ZeroDivisionError` that main.py:80 raises when the
  route has no coordinates. Nor does it model a malformed START_POINT or
  END_POINT: `float` raises `ValueError` on text such as `abc` (main.py:26-27),
  and a point with one number such as `10.0` raises `IndexError` at
  main.py:32. The script stops before any request in these cases. The
  coordinates and the center are inputs, so `Run` with a passing env goes on
  to make every request.
- Timestamp.Format: pads the year to four digits for every valid year. Some
  platforms' `strftime` print years below 1000 unpadded, but a current clock
  reading never has such a year.
- Two style ids with the same short name (`a/x` and `b/x`) get the same file
  name. The model returns both files in order, and on disk the later write
  replaces the earlier one. The file system is not modelled, so that
  replacement is not stated.
