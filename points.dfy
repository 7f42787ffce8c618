/** A geographic point. Its own class is not part of this model: a Point is
    kept as the GeoJSON hash (`{type: "Point", coordinates: [lng, lat]}`) it
    was built from. What `to_hash` returns is decided by that class; this
    model relies on no property of it. */
module Points {
  import opened Documents

  datatype Point = Point(geojson: Bson)

  /** `Point.new(hash)`. */
  function NewPoint(hash: Bson): Point {
    Point(hash)
  }

  /** `point.to_hash`: the wire form used as `$geometry` in a `$near` query. */
  function ToHash(p: Point): Bson {
    p.geojson
  }
}
