// The floating-point trigonometry the simulators call is supplied by the
// caller: only how its raw results are normalised is modelled here.

module Geodesy {
  import PyMath

  /**
   * `math.sin` and `math.cos` (radians), and the two geodesic formulas the
   * route code repeats in several files: the haversine distance in metres and
   * the raw initial course `math.degrees(math.atan2(y, x))` between two
   * (lat, lon) points given in degrees.
   */
  datatype Geo = Geo(
    sin: real -> real,
    cos: real -> real,
    distance: (real, real, real, real) -> real,
    course: (real, real, real, real) -> real)

  /** The haversine formula never yields a negative distance. */
  ghost predicate DistanceNonNegative(geo: Geo) {
    forall a: real, b: real, c: real, d: real :: geo.distance(a, b, c, d) >= 0.0
  }

  /** `(brng + 360.0) % 360.0` on the raw course: a bearing in degrees in [0, 360). */
  function Bearing(geo: Geo, lat1: real, lon1: real, lat2: real, lon2: real): (r: real)
    ensures 0.0 <= r < 360.0
    ensures var raw := geo.course(lat1, lon1, lat2, lon2);
      (-360.0 <= raw < 0.0 ==> r == raw + 360.0) && (0.0 <= raw < 360.0 ==> r == raw)
  {
    PyMath.FloorMod(geo.course(lat1, lon1, lat2, lon2) + 360.0, 360.0)
  }
}
