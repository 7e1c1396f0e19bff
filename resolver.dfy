/**
 * Resolution of the pickup and dropoff coordinates (app.py lines 96-114):
 * the four manual text fields are merged with the points stored by clicks.
 */
module Resolver {
  import opened Wrappers
  import opened Geo
  import opened SessionSelection

  /**
   * Python's `float()` applied to a text field: `Some(x)` when it parses,
   * `None` when it raises. Its grammar is not modelled; callers supply it.
   */
  type Parser = string -> Option<real>

  /** The four manual text fields, as typed. */
  datatype ManualInput = ManualInput(pickupLat: string, pickupLon: string, dropoffLat: string, dropoffLon: string)

  /**
   * `get_coordinate(text) if text else None`: an empty field is absent without
   * being parsed; any other field is whatever parsing makes of it.
   */
  function ManualCoordinate(parse: Parser, text: string): (r: Option<real>)
    ensures r.Some? ==> text != "" && parse(text) == r
    ensures text != "" && parse(text).Some? ==> r == parse(text)
  {
    if text == "" then None else parse(text)
  }

  /** The point typed by hand, present when both of its fields are non-empty and parse. */
  function ManualPoint(parse: Parser, latText: string, lonText: string): Option<Point>
  {
    var lat := ManualCoordinate(parse, latText);
    var lon := ManualCoordinate(parse, lonText);
    if lat.Some? && lon.Some? then Some(Point(lat.value, lon.value)) else None
  }

  /**
   * The final latitude and longitude of one endpoint: the manual pair when both
   * fields parse, otherwise the stored click (both components) when there is one,
   * otherwise whatever the manual fields gave, which leaves at least one absent.
   */
  function ResolvePoint(parse: Parser, latText: string, lonText: string, stored: Option<Point>): (r: (Option<real>, Option<real>))
    ensures var manual := ManualPoint(parse, latText, lonText);
      && (manual.Some? ==> r == (Some(manual.value.lat), Some(manual.value.lon)))
      && (manual.None? && stored.Some? ==> r == (Some(stored.value.lat), Some(stored.value.lon)))
      && (manual.None? && stored.None? ==> r.0.None? || r.1.None?)
    ensures r.0.Some? && r.1.Some? <==> ManualPoint(parse, latText, lonText).Some? || stored.Some?
  {
    var lat := ManualCoordinate(parse, latText);
    var lon := ManualCoordinate(parse, lonText);
    if (lat.None? || lon.None?) && stored.Some? then (Some(stored.value.lat), Some(stored.value.lon))
    else (lat, lon)
  }

  /**
   * Lines 102-112: the four variables are set from the manual fields, then each
   * endpoint's pair is overwritten by the stored click when it is incomplete.
   */
  method ResolveCoordinates(parse: Parser, manual: ManualInput, stored: Selection)
    returns (pickupLat: Option<real>, pickupLon: Option<real>, dropoffLat: Option<real>, dropoffLon: Option<real>)
    ensures (pickupLat, pickupLon) == ResolvePoint(parse, manual.pickupLat, manual.pickupLon, stored.pickup)
    ensures (dropoffLat, dropoffLon) == ResolvePoint(parse, manual.dropoffLat, manual.dropoffLon, stored.dropoff)
  {
    pickupLat := ManualCoordinate(parse, manual.pickupLat);
    pickupLon := ManualCoordinate(parse, manual.pickupLon);
    dropoffLat := ManualCoordinate(parse, manual.dropoffLat);
    dropoffLon := ManualCoordinate(parse, manual.dropoffLon);

    if pickupLat.None? || pickupLon.None? {
      if stored.pickup.Some? {
        pickupLat, pickupLon := Some(stored.pickup.value.lat), Some(stored.pickup.value.lon);
      }
    }
    if dropoffLat.None? || dropoffLon.None? {
      if stored.dropoff.Some? {
        dropoffLat, dropoffLon := Some(stored.dropoff.value.lat), Some(stored.dropoff.value.lon);
      }
    }
  }

  /** Line 114: a ride is resolved exactly when all four values are present. */
  function ResolvedTrip(pickupLat: Option<real>, pickupLon: Option<real>, dropoffLat: Option<real>, dropoffLon: Option<real>): (r: Option<Trip>)
    ensures r.Some? <==> pickupLat.Some? && pickupLon.Some? && dropoffLat.Some? && dropoffLon.Some?
    ensures r.Some? ==> r.value.pickup == Point(pickupLat.value, pickupLon.value)
    ensures r.Some? ==> r.value.dropoff == Point(dropoffLat.value, dropoffLon.value)
  {
    if pickupLat.Some? && pickupLon.Some? && dropoffLat.Some? && dropoffLon.Some? then
      Some(Trip(Point(pickupLat.value, pickupLon.value), Point(dropoffLat.value, dropoffLon.value)))
    else
      None
  }

  /** The endpoint a resolution settles on: the manual point if complete, else the stored click. */
  function Preferred(manual: Option<Point>, stored: Option<Point>): Option<Point>
  {
    if manual.Some? then manual else stored
  }

  /**
   * A prediction runs exactly when each endpoint has a complete manual pair or a
   * stored click, and the ride it runs for takes the manual pair over the click.
   */
  lemma PredictionRunsIff(parse: Parser, manual: ManualInput, stored: Selection)
    ensures var (pLat, pLon) := ResolvePoint(parse, manual.pickupLat, manual.pickupLon, stored.pickup);
      var (dLat, dLon) := ResolvePoint(parse, manual.dropoffLat, manual.dropoffLon, stored.dropoff);
      var pickup := Preferred(ManualPoint(parse, manual.pickupLat, manual.pickupLon), stored.pickup);
      var dropoff := Preferred(ManualPoint(parse, manual.dropoffLat, manual.dropoffLon), stored.dropoff);
      && (ResolvedTrip(pLat, pLon, dLat, dLon).Some? <==> pickup.Some? && dropoff.Some?)
      && (ResolvedTrip(pLat, pLon, dLat, dLon).Some? ==>
            ResolvedTrip(pLat, pLon, dLat, dLon).value == Trip(pickup.value, dropoff.value))
  {
  }
}
