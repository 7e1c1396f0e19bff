/** Coordinates as the dashboard and the routing service write them. */
module Geo {

  /** A point in the dashboard's own order: latitude, then longitude (degrees). */
  datatype Point = Point(lat: real, lon: real)

  /** A GeoJSON position as the routing service writes it: longitude first. */
  datatype Position = Position(lon: real, lat: real)

  /** The resolved pickup and dropoff of one ride. */
  datatype Trip = Trip(pickup: Point, dropoff: Point)
}
