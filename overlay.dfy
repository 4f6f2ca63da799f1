/** The GeoJSON overlay drawn over every map (main.py:40-69): the route twice,
    first as a wide translucent white outline, then as a narrower red line on
    top of it. */
module Overlay {
  import opened Wrappers

  /** A longitude/latitude pair, kept as the decimal text Python prints for each
      float; nothing in the script computes with a coordinate once it is parsed
      except the map center, which is not part of this model. */
  datatype Coord = Coord(lon: string, lat: string)

  /** The `properties` of a feature; `strokeOpacity` is None when the key is absent. */
  datatype Stroke = Stroke(color: string, width: nat, opacity: Option<real>)

  /** A `{"type": "Feature", "geometry": {"type": "LineString", ...}}` entry. */
  datatype Feature = LineString(coordinates: seq<Coord>, properties: Stroke)

  /** A `{"type": "FeatureCollection", "features": [...]}` value. */
  datatype FeatureCollection = FeatureCollection(features: seq<Feature>)

  /** Builds the overlay for `route`. Whatever the route (even a single point or
      none), there are exactly two line features over that very coordinate
      sequence: the white outline (width 12, opacity 0.8) comes first, so it is
      drawn underneath, and is twice as wide as the opaque red line (width 6)
      drawn over it, leaving a white border of 3 on each side. */
  function RouteOverlay(route: seq<Coord>): (fc: FeatureCollection)
    ensures |fc.features| == 2
    ensures forall i :: 0 <= i < |fc.features| ==> fc.features[i].coordinates == route
    ensures fc.features[0].properties == Stroke("#ffffff", 12, Some(0.8))
    ensures fc.features[1].properties == Stroke("#ff0000", 6, None)
    ensures fc.features[0].properties.width == 2 * fc.features[1].properties.width
  {
    FeatureCollection([
      LineString(route, Stroke("#ffffff", 12, Some(0.8))),
      LineString(route, Stroke("#ff0000", 6, None))
    ])
  }

  /** The route a banner overlay draws: the coordinates of its features. */
  function DrawnRoute(fc: FeatureCollection): Option<seq<Coord>>
  {
    if |fc.features| == 2 && fc.features[0].coordinates == fc.features[1].coordinates
    then Some(fc.features[0].coordinates)
    else None
  }

  /** The overlay gives back the route it was built from, so two different
      routes never produce the same overlay. */
  lemma OverlayDrawsRoute(route: seq<Coord>)
    ensures DrawnRoute(RouteOverlay(route)) == Some(route)
  {
    var fc := RouteOverlay(route);
    assert fc.features[0].coordinates == route && fc.features[1].coordinates == route;
  }
}
