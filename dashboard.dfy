/**
 * One pass of the dashboard script (app.py lines 82-175): capture a map
 * click, resolve the coordinates, and, when the ride is resolved, fetch the
 * route, assemble and encode the feature row, and floor the prediction.
 * The routing reply, `float()` and `np.sqrt` are supplied by the caller.
 */
module Dashboard {
  import opened Wrappers
  import opened Geo
  import opened SessionSelection
  import opened Resolver
  import opened Routing
  import opened Features
  import opened Encoding
  import opened Fare

  /** What the success message and the route map show (lines 159-169). */
  datatype Estimate = Estimate(fare: real, distance: Distance, polyline: seq<Point>)

  /**
   * The result of one pass: nothing is predicted while a coordinate is missing;
   * an encoding step that raises ends the pass with its error.
   */
  datatype Outcome = Withheld | Failed(error: Error) | Estimated(estimate: Estimate)

  /**
   * Lines 115-169 for a resolved ride: the distance is the routed one or the
   * straight-line fallback, the feature row built with it is encoded, and the
   * fare is the floored prediction; the map draws the route or, without one,
   * the straight segment. An encoding error ends the pass.
   */
  function FareEstimate(art: Artifacts, sqrt: real -> real, reply: Option<Reply>, req: RideRequest, t: Trip): (o: Outcome)
    ensures !o.Withheld?
    ensures o.Estimated? ==> o.estimate.fare >= MinFare && o.estimate.polyline != []
  {
    var route := DecodeReply(reply);
    var d := DistanceUsed(RoutedKm(route), sqrt, t);
    match EncodedRow(art, InputRow(req, d.km, t))
    case Failure(error) => Failed(error)
    case Success(row) => Estimated(Estimate(FareFloor(art.predict(row)), d, Polyline(RouteCoords(route), t)))
  }

  /**
   * A resolved ride fails exactly when encoding its feature row fails, and with
   * that error; otherwise the estimate reports the distance used, its fare is
   * the floored prediction on the encoded row (the prediction itself whenever
   * that reaches the minimum), and it draws the route or the straight segment.
   */
  lemma EstimateOutcome(art: Artifacts, sqrt: real -> real, reply: Option<Reply>, req: RideRequest, t: Trip)
    ensures var d := DistanceUsed(RoutedKm(DecodeReply(reply)), sqrt, t);
      match EncodedRow(art, InputRow(req, d.km, t))
      case Failure(error) => FareEstimate(art, sqrt, reply, req, t) == Failed(error)
      case Success(row) =>
        match FareEstimate(art, sqrt, reply, req, t)
        case Estimated(e) =>
          && e.distance == d
          && e.fare == FareFloor(art.predict(row))
          && e.fare >= art.predict(row)
          && (art.predict(row) >= MinFare ==> e.fare == art.predict(row))
          && e.polyline == Polyline(RouteCoords(DecodeReply(reply)), t)
        case _ => false
  {
  }

  /**
   * Lines 116-117 as the source runs them: the routed distance is replaced by
   * the straight-line value when the route is missing or shorter than 0.1 km.
   */
  method FallbackDistance(route: Option<Route>, sqrt: real -> real, t: Trip) returns (d: Distance)
    ensures d == DistanceUsed(RoutedKm(route), sqrt, t)
  {
    var km: real;
    var fellBack := false;
    if route.None? || route.value.distanceKm < MinRoutedKm {
      km := StraightLineKm(sqrt, t);
      fellBack := true;
    } else {
      km := route.value.distanceKm;
    }
    d := Distance(km, fellBack);
  }

  /** Lines 115-169 as the source runs them, for a resolved ride. */
  method EstimateRide(art: Artifacts, sqrt: real -> real, reply: Option<Reply>, req: RideRequest, t: Trip)
    returns (o: Outcome)
    ensures o == FareEstimate(art, sqrt, reply, req, t)
  {
    var route := DecodeReply(reply);
    var distance := FallbackDistance(route, sqrt, t);
    var encoded := EncodeFrame(art, InputRow(req, distance.km, t));
    match encoded {
      case Failure(error) =>
        o := Failed(error);
      case Success(row) =>
        var fare := FareFloor(art.predict(row));
        o := Estimated(Estimate(fare, distance, Polyline(RouteCoords(route), t)));
    }
  }

  /**
   * Lines 114-169: nothing is predicted while a value is missing; otherwise the
   * ride is routed and priced as `FareEstimate` describes.
   */
  method PredictFare(art: Artifacts, sqrt: real -> real, fetch: Trip -> Option<Reply>, req: RideRequest,
                     pickupLat: Option<real>, pickupLon: Option<real>, dropoffLat: Option<real>, dropoffLon: Option<real>)
    returns (o: Outcome)
    ensures match ResolvedTrip(pickupLat, pickupLon, dropoffLat, dropoffLon)
      case None => o == Withheld
      case Some(t) => o == FareEstimate(art, sqrt, fetch(t), req, t)
    ensures o.Withheld? <==> ResolvedTrip(pickupLat, pickupLon, dropoffLat, dropoffLon).None?
    ensures match o
      case Estimated(e) => e.fare >= MinFare && e.polyline != []
      case _ => true
  {
    var trip := ResolvedTrip(pickupLat, pickupLon, dropoffLat, dropoffLon);
    match trip {
      case None =>
        o := Withheld;
      case Some(t) =>
        o := EstimateRide(art, sqrt, fetch(t), req, t);
    }
  }

  /**
   * With the four manual fields left empty, a fresh session resolves a ride
   * only after two clicks, and that ride goes from the first click to the second.
   */
  lemma {:induction false} ClickedRide(parse: Parser, ps: seq<Point>)
    ensures var s := AfterClicks(Empty, ps);
      var (pLat, pLon) := ResolvePoint(parse, "", "", s.pickup);
      var (dLat, dLon) := ResolvePoint(parse, "", "", s.dropoff);
      var trip := ResolvedTrip(pLat, pLon, dLat, dLon);
      && (trip.Some? <==> |ps| >= 2)
      && (|ps| >= 2 ==> trip == Some(Trip(ps[0], ps[1])))
  {
    ClicksFromEmpty(ps);
    if ps == [] {
      assert AfterClicks(Empty, ps) == Empty;
    }
  }

  /** The selection after a pass that may or may not have captured a click. */
  function AfterCapture(s: Selection, click: Option<Point>): (r: Selection)
    ensures WellFormed(s) ==> WellFormed(r)
  {
    if click.Some? then AfterClick(s, click.value) else s
  }

  /** Lines 82-91: a click reported by the map, if any, is applied to the stored points. */
  method CaptureClick(sel: SelectionState, click: Option<Point>)
    requires sel.Valid()
    modifies sel
    ensures sel.Valid()
    ensures sel.State() == AfterCapture(old(sel.State()), click)
  {
    if click.Some? {
      sel.Click(click.value);
    }
  }

  /**
   * One run of the script: a captured click updates the stored points, the
   * coordinates are resolved against them and a fare is predicted, and a
   * pressed reset button clears both points afterwards. An encoding error
   * stops the script before the reset (lines 172-174) is reached, so the
   * points stay as the click left them.
   */
  method Rerun(sel: SelectionState, click: Option<Point>, parse: Parser, manual: ManualInput, resetPressed: bool,
               art: Artifacts, sqrt: real -> real, fetch: Trip -> Option<Reply>, req: RideRequest)
    returns (o: Outcome)
    requires sel.Valid()
    modifies sel
    ensures sel.Valid()
    ensures resetPressed && !o.Failed? ==> sel.State() == Empty
    ensures !resetPressed || o.Failed? ==> sel.State() == AfterCapture(old(sel.State()), click)
    ensures var stored := AfterCapture(old(sel.State()), click);
      var (pLat, pLon) := ResolvePoint(parse, manual.pickupLat, manual.pickupLon, stored.pickup);
      var (dLat, dLon) := ResolvePoint(parse, manual.dropoffLat, manual.dropoffLon, stored.dropoff);
      var trip := ResolvedTrip(pLat, pLon, dLat, dLon);
      && (o.Withheld? <==> trip.None?)
      && (trip.Some? ==> o == FareEstimate(art, sqrt, fetch(trip.value), req, trip.value))
    ensures match o
      case Estimated(e) => e.fare >= MinFare && e.polyline != []
      case _ => true
  {
    CaptureClick(sel, click);
    var pickupLat, pickupLon, dropoffLat, dropoffLon := ResolveCoordinates(parse, manual, sel.State());
    o := PredictFare(art, sqrt, fetch, req, pickupLat, pickupLon, dropoffLat, dropoffLon);
    if resetPressed && !o.Failed? {
      sel.Reset();
    }
  }
}
