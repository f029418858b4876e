/**
 * Plane geometry on raw (latitude, longitude) coordinates, as used by both the
 * dashboard's advisory logic and the simulator. Distances are never taken with a
 * square root: a test `sqrt(d) < r` with `r > 0` is written `d < r * r`.
 */
module Geometry {

  datatype Point = Point(lat: real, lng: real)

  /** The squared Euclidean distance between two points. */
  function DistSq(p: Point, q: Point): (d: real)
    ensures d >= 0.0
    ensures p == q ==> d == 0.0
  {
    (p.lat - q.lat) * (p.lat - q.lat) + (p.lng - q.lng) * (p.lng - q.lng)
  }

  /** `dist(p, q) < radius`, stated on squares; `radius` is positive at every use. */
  predicate WithinRadius(p: Point, q: Point, radius: real)
    requires radius > 0.0
  {
    DistSq(p, q) < radius * radius
  }
}
