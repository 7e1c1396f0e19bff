/**
 * Handling of the routing service's reply and the distance fallback
 * (app.py lines 27-42, 116-117 and 165). The HTTP request itself is not part
 * of this model: its decoded reply is an input, and `None` stands for a
 * request that raised.
 */
module Routing {
  import opened Wrappers
  import opened Geo

  /** One element of the reply's "routes" array: "distance" in metres and "geometry"."coordinates". */
  datatype RouteEntry = RouteEntry(distanceMetres: real, coordinates: seq<Position>)

  /** The decoded JSON reply; `routes` is `None` when the key is missing. */
  datatype Reply = Reply(routes: Option<seq<RouteEntry>>)

  /** What `get_osrm_route` returns on success: kilometres and the polyline in (lat, lon) order. */
  datatype Route = Route(distanceKm: real, coords: seq<Point>)

  const MetresPerKm: real := 1000.0

  /** A routed distance below this is treated as degenerate (line 116). */
  const MinRoutedKm: real := 0.1

  /** Kilometres per degree of the flat-earth fallback (line 117). */
  const KmPerDegree: real := 111.0

  /** Line 35: every [lon, lat] pair becomes (lat, lon), in the same order. */
  function ToLatLon(ps: seq<Position>): (r: seq<Point>)
    ensures |r| == |ps|
    ensures forall k :: 0 <= k < |ps| ==> r[k] == Point(ps[k].lat, ps[k].lon)
  {
    if ps == [] then [] else [Point(ps[0].lat, ps[0].lon)] + ToLatLon(ps[1..])
  }

  /**
   * Lines 33-39: a reply with a non-empty "routes" array yields the first
   * route's distance in kilometres and its swapped coordinates; a missing or
   * empty array, or a request that raised, yields nothing.
   */
  function DecodeReply(reply: Option<Reply>): (r: Option<Route>)
    ensures r.Some? <==> reply.Some? && reply.value.routes.Some? && |reply.value.routes.value| > 0
    ensures r.Some? ==>
      var first := reply.value.routes.value[0];
      && r.value.distanceKm * MetresPerKm == first.distanceMetres
      && |r.value.coords| == |first.coordinates|
      && forall k :: 0 <= k < |first.coordinates| ==>
           r.value.coords[k] == Point(first.coordinates[k].lat, first.coordinates[k].lon)
  {
    match reply
    case None => None
    case Some(Reply(routes)) =>
      if routes.Some? && |routes.value| > 0 then
        Some(Route(routes.value[0].distanceMetres / MetresPerKm, ToLatLon(routes.value[0].coordinates)))
      else
        None
  }

  /** The routed distance, if the reply produced a route. */
  function RoutedKm(route: Option<Route>): Option<real>
  {
    if route.Some? then Some(route.value.distanceKm) else None
  }

  /** The route's polyline, if the reply produced a route. */
  function RouteCoords(route: Option<Route>): Option<seq<Point>>
  {
    if route.Some? then Some(route.value.coords) else None
  }

  /** Squared Euclidean distance between the endpoints, in square degrees. */
  function SquaredDegrees(t: Trip): (r: real)
    ensures r >= 0.0
  {
    var dLon := t.dropoff.lon - t.pickup.lon;
    var dLat := t.dropoff.lat - t.pickup.lat;
    dLon * dLon + dLat * dLat
  }

  /** Line 117: the straight-line distance, with `np.sqrt` supplied by the caller. */
  function StraightLineKm(sqrt: real -> real, t: Trip): real
  {
    sqrt(SquaredDegrees(t)) * KmPerDegree
  }

  /** `sqrt` returns the non-negative square root of every non-negative real. */
  ghost predicate IsSquareRoot(sqrt: real -> real)
  {
    forall x :: 0.0 <= x ==> 0.0 <= sqrt(x) && sqrt(x) * sqrt(x) == x
  }

  /** With a true square root, the fallback is 111 times the Euclidean distance in degrees. */
  lemma StraightLineSquared(sqrt: real -> real, t: Trip)
    requires IsSquareRoot(sqrt)
    ensures 0.0 <= StraightLineKm(sqrt, t)
    ensures StraightLineKm(sqrt, t) * StraightLineKm(sqrt, t) == KmPerDegree * KmPerDegree * SquaredDegrees(t)
  {
    var s := sqrt(SquaredDegrees(t));
    assert 0.0 <= s && s * s == SquaredDegrees(t);
    calc {
      StraightLineKm(sqrt, t) * StraightLineKm(sqrt, t);
      (s * KmPerDegree) * (s * KmPerDegree);
      KmPerDegree * KmPerDegree * (s * s);
    }
  }

  lemma SquareMonotone(a: real, b: real)
    requires 0.0 <= a <= b
    ensures a * a <= b * b
  {
    assert a * a <= a * b <= b * b;
  }

  /** Pickup (40.0, -73.0) to dropoff (40.1, -73.1) falls back to about 15.70 km. */
  lemma StraightLineExample(sqrt: real -> real)
    requires IsSquareRoot(sqrt)
    ensures var km := StraightLineKm(sqrt, Trip(Point(40.0, -73.0), Point(40.1, -73.1)));
      15.69 < km < 15.71
  {
    var t := Trip(Point(40.0, -73.0), Point(40.1, -73.1));
    assert SquaredDegrees(t) == 0.02;
    StraightLineSquared(sqrt, t);
    var km := StraightLineKm(sqrt, t);
    assert km * km == 246.42;
    if km <= 15.69 {
      SquareMonotone(km, 15.69);
      assert false;
    }
    if km >= 15.71 {
      assert false;
    }
  }

  /** The distance used for the fare, and whether it is the straight-line fallback. */
  datatype Distance = Distance(km: real, fellBack: bool)

  /**
   * Lines 116-117: the routed distance is kept exactly when it is present and at
   * least 0.1 km; otherwise the straight-line value replaces it.
   */
  function DistanceUsed(routedKm: Option<real>, sqrt: real -> real, t: Trip): (d: Distance)
    ensures !d.fellBack <==> routedKm.Some? && routedKm.value >= MinRoutedKm
    ensures !d.fellBack ==> d.km == routedKm.value
    ensures d.fellBack ==> d.km == StraightLineKm(sqrt, t)
  {
    if routedKm.None? || routedKm.value < MinRoutedKm then
      Distance(StraightLineKm(sqrt, t), true)
    else
      Distance(routedKm.value, false)
  }

  /** With a true square root, the distance used is never negative, and is below 0.1 km only on the fallback. */
  lemma DistanceUsedNonNegative(routedKm: Option<real>, sqrt: real -> real, t: Trip)
    requires IsSquareRoot(sqrt)
    ensures 0.0 <= DistanceUsed(routedKm, sqrt, t).km
    ensures DistanceUsed(routedKm, sqrt, t).km < MinRoutedKm ==> DistanceUsed(routedKm, sqrt, t).fellBack
  {
    StraightLineSquared(sqrt, t);
  }

  /**
   * Line 165: the polyline is the route's coordinates when that list is
   * non-empty, otherwise the two endpoints.
   */
  function Polyline(routeCoords: Option<seq<Point>>, t: Trip): (r: seq<Point>)
    ensures r != []
    ensures routeCoords.Some? && routeCoords.value != [] ==> r == routeCoords.value
    ensures routeCoords.None? || routeCoords.value == [] ==> r == [t.pickup, t.dropoff]
  {
    if routeCoords.Some? && routeCoords.value != [] then routeCoords.value else [t.pickup, t.dropoff]
  }

  /**
   * A route shorter than 0.1 km still draws its own coordinates, although its
   * distance is replaced by the straight-line value.
   */
  lemma ShortRouteKeepsItsPolyline(reply: Option<Reply>, sqrt: real -> real, t: Trip)
    requires DecodeReply(reply).Some?
    requires DecodeReply(reply).value.distanceKm < MinRoutedKm
    requires DecodeReply(reply).value.coords != []
    ensures DistanceUsed(RoutedKm(DecodeReply(reply)), sqrt, t).fellBack
    ensures Polyline(RouteCoords(DecodeReply(reply)), t) == DecodeReply(reply).value.coords
  {
  }

  /** A failed request both falls back on distance and draws the straight segment between the endpoints. */
  lemma FailedRequestFallsBack(sqrt: real -> real, t: Trip)
    ensures DistanceUsed(RoutedKm(DecodeReply(None)), sqrt, t) == Distance(StraightLineKm(sqrt, t), true)
    ensures Polyline(RouteCoords(DecodeReply(None)), t) == [t.pickup, t.dropoff]
  {
  }
}
