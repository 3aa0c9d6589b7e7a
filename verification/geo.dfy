/** Positions and distances. The great-circle (haversine) formula itself is
    not part of this model: every operation that filters by distance takes the
    distance function as a parameter. */
module Geo {

  /** A latitude/longitude pair in degrees. */
  datatype Point = Point(latitude: real, longitude: real)

  /** A distance in kilometres between two points. */
  type Distance = (Point, Point) -> real

  /** A distance rounded to two decimals, as the server's `round(d, 2)` and
      the app's `Math.round(d * 100) / 100` report it: the nearest whole
      number of hundredths, a tie going up. */
  function RoundHundredths(d: real): (r: real)
    ensures (r * 100.0).Floor as real == r * 100.0
    ensures d - 0.005 < r <= d + 0.005
  {
    ((d * 100.0 + 0.5).Floor as real) / 100.0
  }
}
