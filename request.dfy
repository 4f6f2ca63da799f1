/** The request strings the script composes: the Directions API URL
    (main.py:30-34), the two marker specifiers (main.py:74-75), the center/zoom
    and size strings (main.py:81-84) and the Static Images API URL
    (main.py:92-97). Each comes with a decoder that reads its fields back, and a
    lemma that the decoder recovers exactly what was put in. */
module Request {
  import opened Wrappers
  import opened Text
  import opened Decimal
  import opened Overlay

  /** The characters Python uses when it prints a float (`1.5`, `-0.25`,
      `1e-05`, `2.5e+20`, `inf`, `nan`). */
  predicate IsFloatChar(c: char)
  {
    IsDigit(c) || c == '.' || c == '-' || c == '+' || c == 'e' || c == 'i' || c == 'n' || c == 'f' || c == 'a'
  }

  /** Text as printed for a float; it never holds a separator used below. */
  predicate IsFloatText(s: string)
  {
    forall i :: 0 <= i < |s| ==> IsFloatChar(s[i])
  }

  predicate IsPrintedCoord(c: Coord)
  {
    IsFloatText(c.lon) && IsFloatText(c.lat)
  }

  lemma FloatTextHasNoSeparator(s: string, c: char)
    requires IsFloatText(s) && !IsFloatChar(c)
    ensures c !in s
  {
  }

  // ---------------------------------------------------------------------------
  // Markers
  // ---------------------------------------------------------------------------

  const MarkerColor := "ff0000"

  /** A large (`l`) pin of the given shape, in red, at `at`. */
  function Marker(shape: string, at: Coord): string
  {
    "pin-l-" + shape + "+" + MarkerColor + "(" + at.lon + "," + at.lat + ")"
  }

  /** `pin-l-circle+ff0000(lon,lat)` at the route's start. */
  function StartMarker(at: Coord): string
  {
    Marker("circle", at)
  }

  /** `pin-l-star+ff0000(lon,lat)` at the route's finish. */
  function FinishMarker(at: Coord): string
  {
    Marker("star", at)
  }

  /** Reads a red large pin back into its shape and position. */
  function MarkerFields(m: string): Option<(string, Coord)>
  {
    if |m| < 7 || !StartsWith(m, "pin-l-") || m[|m| - 1] != ')' then None
    else
      var inner := Split(m[6..|m| - 1], '(');
      if |inner| != 2 || !EndsWith(inner[0], "+" + MarkerColor) then None
      else
        var at := Split(inner[1], ',');
        if |at| != 2 then None
        else Some((inner[0][..|inner[0]| - 7], Coord(at[0], at[1])))
  }

  lemma MarkerInner(shape: string, at: Coord)
    ensures var m := Marker(shape, at);
      && |m| >= 7 && StartsWith(m, "pin-l-") && m[|m| - 1] == ')'
      && m[6..|m| - 1] == (shape + "+" + MarkerColor) + ['('] + (at.lon + [','] + at.lat)
  {
    var m := Marker(shape, at);
    var head, body := shape + "+" + MarkerColor, at.lon + [','] + at.lat;
    assert m == "pin-l-" + (head + ['('] + body) + ")";
  }

  /** A marker built for a printed coordinate reads back as that shape and
      coordinate: longitude first, then latitude. */
  lemma MarkerRoundTrip(shape: string, at: Coord)
    requires '(' !in shape
    requires IsPrintedCoord(at)
    ensures MarkerFields(Marker(shape, at)) == Some((shape, at))
  {
    FloatTextHasNoSeparator(at.lon, '(');
    FloatTextHasNoSeparator(at.lat, '(');
    FloatTextHasNoSeparator(at.lon, ',');
    FloatTextHasNoSeparator(at.lat, ',');
    var head, body := shape + "+" + MarkerColor, at.lon + [','] + at.lat;
    MarkerInner(shape, at);
    assert '(' !in head;
    assert '(' !in body;
    SplitPair(head, '(', body);
    SplitPair(at.lon, ',', at.lat);
    assert EndsWith(head, "+" + MarkerColor);
    assert head[..|head| - 7] == shape;
  }

  lemma StartMarkerRoundTrip(at: Coord)
    requires IsPrintedCoord(at)
    ensures MarkerFields(StartMarker(at)) == Some(("circle", at))
  {
    MarkerRoundTrip("circle", at);
  }

  lemma FinishMarkerRoundTrip(at: Coord)
    requires IsPrintedCoord(at)
    ensures MarkerFields(FinishMarker(at)) == Some(("star", at))
  {
    MarkerRoundTrip("star", at);
  }

  // ---------------------------------------------------------------------------
  // Center and size
  // ---------------------------------------------------------------------------

  const Zoom: nat := 16
  const Width: nat := 1280
  const Height: nat := 800

  /** `f"{lon},{lat},{zoom}"`. */
  function CenterText(center: Coord, zoom: nat): string
  {
    center.lon + "," + center.lat + "," + Numeral(zoom)
  }

  /** `f"{width}x{height}"`. */
  function SizeText(width: nat, height: nat): string
  {
    Numeral(width) + "x" + Numeral(height)
  }

  /** Reads a center string back into the center and the zoom. */
  function CenterFields(s: string): Option<(Coord, nat)>
  {
    var f := Split(s, ',');
    if |f| != 3 then None
    else match ParseNumeral(f[2])
      case None => None
      case Some(zoom) => Some((Coord(f[0], f[1]), zoom))
  }

  /** The center string has three comma-separated fields, longitude, latitude
      and zoom, and reads back as the center and zoom it was made from. */
  lemma CenterRoundTrip(center: Coord, zoom: nat)
    requires IsPrintedCoord(center)
    ensures CenterFields(CenterText(center, zoom)) == Some((center, zoom))
  {
    FloatTextHasNoSeparator(center.lon, ',');
    FloatTextHasNoSeparator(center.lat, ',');
    var z := Numeral(zoom);
    assert ',' !in z;
    assert CenterText(center, zoom) == center.lon + [','] + (center.lat + [','] + z);
    SplitPair(center.lat, ',', z);
    SplitAround(center.lon, ',', center.lat + [','] + z);
    SplitWithoutSeparator(center.lon, ',');
    NumeralRoundTrip(zoom);
  }

  /** With the script's zoom, the center string ends in `,16`. */
  lemma CenterTextZoom(center: Coord)
    ensures EndsWith(CenterText(center, Zoom), ",16")
  {
    assert Numeral(Zoom) == "16";
  }

  /** Reads a size string back into the width and the height. */
  function SizeFields(s: string): Option<(nat, nat)>
  {
    var f := Split(s, 'x');
    if |f| != 2 then None
    else match (ParseNumeral(f[0]), ParseNumeral(f[1]))
      case (Some(width), Some(height)) => Some((width, height))
      case _ => None
  }

  /** The size string is the two numerals around a single `x`, and reads back
      as the width and the height. */
  lemma SizeRoundTrip(width: nat, height: nat)
    ensures SizeFields(SizeText(width, height)) == Some((width, height))
  {
    var w, h := Numeral(width), Numeral(height);
    assert 'x' !in w && 'x' !in h;
    SplitPair(w, 'x', h);
    NumeralRoundTrip(width);
    NumeralRoundTrip(height);
  }

  /** With the script's dimensions, the size string is `1280x800`. */
  lemma SizeTextBanner()
    ensures SizeText(Width, Height) == "1280x800"
  {
    assert Numeral(Width) == "1280";
    assert Numeral(Height) == "800";
  }

  // ---------------------------------------------------------------------------
  // Directions API request
  // ---------------------------------------------------------------------------

  const DirectionsBase := "https://api.mapbox.com/directions/v5/mapbox/walking/"
  const DirectionsQuery := "geometries=geojson&access_token="

  /** The walking-route request from `start` to `finish`, asking for GeoJSON geometry. */
  function DirectionsUrl(start: Coord, finish: Coord, token: string): string
  {
    DirectionsBase + start.lon + "," + start.lat + ";" + finish.lon + "," + finish.lat
    + "?" + DirectionsQuery + token
  }

  /** Reads a Directions request back into its two waypoints and its token. */
  function DirectionsFields(u: string): Option<(Coord, Coord, string)>
  {
    if !StartsWith(u, DirectionsBase) then None
    else
      var q := Split(u[|DirectionsBase|..], '?');
      if |q| != 2 || !StartsWith(q[1], DirectionsQuery) then None
      else
        var w := Split(q[0], ';');
        if |w| != 2 then None
        else
          var a, b := Split(w[0], ','), Split(w[1], ',');
          if |a| != 2 || |b| != 2 then None
          else Some((Coord(a[0], a[1]), Coord(b[0], b[1]), q[1][|DirectionsQuery|..]))
  }

  lemma PrintedCoordText(c: Coord)
    requires IsPrintedCoord(c)
    ensures var t := c.lon + [','] + c.lat;
      && Split(t, ',') == [c.lon, c.lat]
      && ';' !in t && '?' !in t && '/' !in t && '(' !in t
  {
    FloatTextHasNoSeparator(c.lon, ',');
    FloatTextHasNoSeparator(c.lat, ',');
    SplitPair(c.lon, ',', c.lat);
  }

  lemma DirectionsUrlShape(start: Coord, finish: Coord, token: string)
    ensures var u := DirectionsUrl(start, finish, token);
      var path := (start.lon + [','] + start.lat) + [';'] + (finish.lon + [','] + finish.lat);
      StartsWith(u, DirectionsBase)
      && u[|DirectionsBase|..] == path + ['?'] + (DirectionsQuery + token)
  {
  }

  /** The Directions request names the start waypoint first and the finish
      second, each longitude before latitude, and carries the token. */
  lemma DirectionsRoundTrip(start: Coord, finish: Coord, token: string)
    requires IsPrintedCoord(start) && IsPrintedCoord(finish)
    requires '?' !in token
    ensures DirectionsFields(DirectionsUrl(start, finish, token)) == Some((start, finish, token))
  {
    var a, b := start.lon + [','] + start.lat, finish.lon + [','] + finish.lat;
    var path, query := a + [';'] + b, DirectionsQuery + token;
    var u := DirectionsUrl(start, finish, token);
    DirectionsUrlShape(start, finish, token);
    PrintedCoordText(start);
    PrintedCoordText(finish);
    assert '?' !in path by { NotInAppend('?', a + [';'], b); }
    assert '?' !in query by { NotInAppend('?', DirectionsQuery, token); }
    SplitPair(path, '?', query);
    SplitPair(a, ';', b);
    assert query[|DirectionsQuery|..] == token;
  }

  // ---------------------------------------------------------------------------
  // Static Images API request
  // ---------------------------------------------------------------------------

  /** Everything in a map request that is the same for every style of a run. */
  datatype MapPlan = MapPlan(
    startMarker: string,
    finishMarker: string,
    overlay: string,
    center: string,
    size: string,
    token: string)

  const StylesBase := "https://api.mapbox.com/styles/v1/"
  const TokenQuery := "access_token="

  /** `{start_marker},{finish_marker},geojson({geojson_str})`: the overlays, in
      drawing order. */
  function OverlaySegment(plan: MapPlan): string
  {
    plan.startMarker + "," + plan.finishMarker + ",geojson(" + plan.overlay + ")"
  }

  /** The path after the base: style id, `static`, overlays, center, size. */
  function StaticPath(styleId: string, plan: MapPlan): string
  {
    styleId + "/static/" + OverlaySegment(plan) + "/" + plan.center + "/" + plan.size
  }

  /** The static-map request for one style. */
  function StaticUrl(styleId: string, plan: MapPlan): string
  {
    StylesBase + StaticPath(styleId, plan) + "?" + TokenQuery + plan.token
  }

  /** Reads an overlay segment back into the two markers and the overlay text. */
  function OverlayFields(seg: string): Option<(string, string, string)>
  {
    var parts := Split(seg, ',');
    if |parts| != 5 || |parts[4]| < 9 || !StartsWith(parts[4], "geojson(") || parts[4][|parts[4]| - 1] != ')'
    then None
    else Some((parts[0] + "," + parts[1], parts[2] + "," + parts[3], parts[4][8..|parts[4]| - 1]))
  }

  /** Reads a request path back into its style id and the plan's parts other
      than the token, which is left empty. */
  function PathFields(path: string): Option<(string, MapPlan)>
  {
    var segs := Split(path, '/');
    var n := |segs|;
    if n < 5 || segs[n - 4] != "static" then None
    else match OverlayFields(segs[n - 3])
      case None => None
      case Some((sm, fm, overlay)) =>
        Some((Join(segs[..n - 4], '/'), MapPlan(sm, fm, overlay, segs[n - 2], segs[n - 1], "")))
  }

  /** Reads a static-map request back into its style id and the per-run parts. */
  function StaticFields(u: string): Option<(string, MapPlan)>
  {
    if !StartsWith(u, StylesBase) then None
    else
      var q := Split(u[|StylesBase|..], '?');
      if |q| != 2 || !StartsWith(q[1], TokenQuery) then None
      else match PathFields(q[0])
        case None => None
        case Some((styleId, plan)) => Some((styleId, plan.(token := q[1][|TokenQuery|..])))
  }

  /** A marker that fits in the overlay segment: one comma, no `/` or `?`. */
  predicate MarkerFits(m: string)
  {
    '/' !in m && '?' !in m && |Split(m, ',')| == 2
  }

  /** What the request's separators need of its parts to be read back. */
  predicate PlanFits(plan: MapPlan)
  {
    && MarkerFits(plan.startMarker) && MarkerFits(plan.finishMarker)
    && ',' !in plan.overlay && '/' !in plan.overlay && '?' !in plan.overlay
    && '/' !in plan.center && '?' !in plan.center
    && '/' !in plan.size && '?' !in plan.size
    && '?' !in plan.token
  }

  /** The overlay segment splits at its commas into the two halves of each
      marker and the GeoJSON overlay. */
  lemma OverlaySegmentParts(plan: MapPlan)
    requires PlanFits(plan)
    ensures var parts := Split(OverlaySegment(plan), ',');
      && |parts| == 5
      && parts[0] + "," + parts[1] == plan.startMarker
      && parts[2] + "," + parts[3] == plan.finishMarker
      && parts[4] == "geojson(" + plan.overlay + ")"
  {
    var sm, fm, geo := plan.startMarker, plan.finishMarker, "geojson(" + plan.overlay + ")";
    assert OverlaySegment(plan) == sm + [','] + (fm + [','] + geo);
    assert ',' !in geo;
    SplitAround(sm, ',', fm + [','] + geo);
    SplitAround(fm, ',', geo);
    SplitWithoutSeparator(geo, ',');
    JoinSplit(sm, ',');
    JoinSplit(fm, ',');
  }

  /** A separator that occurs in none of the markers and not in the overlay does
      not occur in the overlay segment. */
  lemma OverlaySegmentFree(plan: MapPlan, c: char)
    requires c == '/' || c == '?'
    requires c !in plan.startMarker && c !in plan.finishMarker && c !in plan.overlay
    ensures c !in OverlaySegment(plan)
  {
    var sm, fm, o := plan.startMarker, plan.finishMarker, plan.overlay;
    assert c !in "," && c !in ",geojson(" && c !in ")";
    NotInAppend(c, sm, ",");
    NotInAppend(c, sm + ",", fm);
    NotInAppend(c, sm + "," + fm, ",geojson(");
    NotInAppend(c, sm + "," + fm + ",geojson(", o);
    NotInAppend(c, sm + "," + fm + ",geojson(" + o, ")");
  }

  /** The path splits at its slashes into the style id's own segments,
      `static`, the overlays, the center and the size. */
  lemma StaticPathSegments(styleId: string, plan: MapPlan)
    requires PlanFits(plan)
    ensures Split(StaticPath(styleId, plan), '/')
            == Split(styleId, '/') + ["static", OverlaySegment(plan), plan.center, plan.size]
  {
    var seg := OverlaySegment(plan);
    OverlaySegmentFree(plan, '/');
    var tail := "static" + ['/'] + (seg + ['/'] + (plan.center + ['/'] + plan.size));
    assert StaticPath(styleId, plan) == styleId + ['/'] + tail;
    SplitAround(styleId, '/', tail);
    SplitAround("static", '/', seg + ['/'] + (plan.center + ['/'] + plan.size));
    SplitAround(seg, '/', plan.center + ['/'] + plan.size);
    SplitPair(plan.center, '/', plan.size);
    SplitWithoutSeparator("static", '/');
    SplitWithoutSeparator(seg, '/');
  }

  /** With a style id free of `?`, the only `?` of the request is the one
      before the token. */
  lemma StaticPathFree(styleId: string, plan: MapPlan)
    requires PlanFits(plan) && '?' !in styleId
    ensures '?' !in StaticPath(styleId, plan)
  {
    var seg := OverlaySegment(plan);
    OverlaySegmentFree(plan, '?');
    assert '?' !in "/static/" && '?' !in "/";
    NotInAppend('?', styleId, "/static/");
    NotInAppend('?', styleId + "/static/", seg);
    NotInAppend('?', styleId + "/static/" + seg, "/");
    NotInAppend('?', styleId + "/static/" + seg + "/", plan.center);
    NotInAppend('?', styleId + "/static/" + seg + "/" + plan.center, "/");
    NotInAppend('?', styleId + "/static/" + seg + "/" + plan.center + "/", plan.size);
  }

  /** The overlay segment reads back as the two markers and the overlay. */
  lemma OverlayRoundTrip(plan: MapPlan)
    requires PlanFits(plan)
    ensures OverlayFields(OverlaySegment(plan)) == Some((plan.startMarker, plan.finishMarker, plan.overlay))
  {
    OverlaySegmentParts(plan);
    var geo := "geojson(" + plan.overlay + ")";
    assert |geo| >= 9 && StartsWith(geo, "geojson(") && geo[|geo| - 1] == ')';
    assert geo[8..|geo| - 1] == plan.overlay;
  }

  /** The path reads back as the style id, the overlays, the center and the size. */
  lemma PathRoundTrip(styleId: string, plan: MapPlan)
    requires PlanFits(plan)
    ensures PathFields(StaticPath(styleId, plan)) == Some((styleId, plan.(token := "")))
  {
    StaticPathSegments(styleId, plan);
    var segs := Split(StaticPath(styleId, plan), '/');
    var n := |segs|;
    assert segs[n - 4] == "static" && segs[n - 3] == OverlaySegment(plan);
    assert segs[n - 2] == plan.center && segs[n - 1] == plan.size;
    assert segs[..n - 4] == Split(styleId, '/');
    JoinSplit(styleId, '/');
    OverlayRoundTrip(plan);
  }

  /** The static-map request places the style id, then `static`, then the start
      marker, the finish marker and the GeoJSON overlay, then the center, then
      the size, then the token: reading it back gives every part in its slot. */
  lemma StaticRoundTrip(styleId: string, plan: MapPlan)
    requires PlanFits(plan) && '?' !in styleId
    ensures StaticFields(StaticUrl(styleId, plan)) == Some((styleId, plan))
  {
    var path, query := StaticPath(styleId, plan), TokenQuery + plan.token;
    var u := StaticUrl(styleId, plan);
    assert u == StylesBase + (path + ['?'] + query);
    assert u[|StylesBase|..] == path + ['?'] + query;
    StaticPathFree(styleId, plan);
    assert '?' !in query;
    SplitPair(path, '?', query);
    assert query[|TokenQuery|..] == plan.token;
    PathRoundTrip(styleId, plan);
  }

  /** A character that is in none of the parts of a pin is not in the pin. */
  lemma MarkerFree(shape: string, at: Coord, c: char)
    requires c !in "pin-l-+(,)" && c !in MarkerColor
    requires c !in shape && c !in at.lon && c !in at.lat
    ensures c !in Marker(shape, at)
  {
    assert c !in "pin-l-" && c !in "+" && c !in "(" && c !in "," && c !in ")";
    NotInAppend(c, "pin-l-", shape);
    NotInAppend(c, "pin-l-" + shape, "+");
    NotInAppend(c, "pin-l-" + shape + "+", MarkerColor);
    NotInAppend(c, "pin-l-" + shape + "+" + MarkerColor, "(");
    NotInAppend(c, "pin-l-" + shape + "+" + MarkerColor + "(", at.lon);
    NotInAppend(c, "pin-l-" + shape + "+" + MarkerColor + "(" + at.lon, ",");
    NotInAppend(c, "pin-l-" + shape + "+" + MarkerColor + "(" + at.lon + ",", at.lat);
    NotInAppend(c, "pin-l-" + shape + "+" + MarkerColor + "(" + at.lon + "," + at.lat, ")");
  }

  /** A pin whose shape has no separator fits the overlay segment. */
  lemma MarkerFitsPrinted(shape: string, at: Coord)
    requires ',' !in shape && '/' !in shape && '?' !in shape
    requires IsPrintedCoord(at)
    ensures MarkerFits(Marker(shape, at))
  {
    FloatTextHasNoSeparator(at.lon, ',');
    FloatTextHasNoSeparator(at.lat, ',');
    FloatTextHasNoSeparator(at.lon, '/');
    FloatTextHasNoSeparator(at.lat, '/');
    FloatTextHasNoSeparator(at.lon, '?');
    FloatTextHasNoSeparator(at.lat, '?');
    var head := "pin-l-" + shape + "+" + MarkerColor + "(" + at.lon;
    var tail := at.lat + ")";
    assert Marker(shape, at) == head + [','] + tail;
    assert ',' !in "pin-l-" && ',' !in "+" && ',' !in MarkerColor && ',' !in "(" && ',' !in ")";
    NotInAppend(',', "pin-l-", shape);
    NotInAppend(',', "pin-l-" + shape, "+");
    NotInAppend(',', "pin-l-" + shape + "+", MarkerColor);
    NotInAppend(',', "pin-l-" + shape + "+" + MarkerColor, "(");
    NotInAppend(',', "pin-l-" + shape + "+" + MarkerColor + "(", at.lon);
    NotInAppend(',', at.lat, ")");
    SplitPair(head, ',', tail);
    MarkerFree(shape, at, '/');
    MarkerFree(shape, at, '?');
  }
}
