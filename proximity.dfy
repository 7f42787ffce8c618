/** Proximity search: the `$near` filter against the 2dsphere index on
    `geometry.geolocation`, and the two entry points that send it. How the
    store orders and bounds the matches is its own business. */
module Proximity {
  import opened Wrappers
  import opened Documents
  import opened Points
  import opened Places

  /** `{'geometry.geolocation' => {$near => {$geometry => point.to_hash,
      $maxDistance => max_meters}}}`; a nil `max_meters` is passed on as
      nil. */
  function NearFilter(point: Point, maxMeters: Bson): (q: Bson)
    ensures Keys(q) == ["geometry.geolocation"]
    ensures Keys(Get(q, "geometry.geolocation")) == ["$near"]
    ensures Keys(Get(Get(q, "geometry.geolocation"), "$near")) == ["$geometry", "$maxDistance"]
    ensures Get(Get(Get(q, "geometry.geolocation"), "$near"), "$geometry") == ToHash(point)
    ensures Get(Get(Get(q, "geometry.geolocation"), "$near"), "$maxDistance") == maxMeters
  {
    BHash([("geometry.geolocation",
      BHash([("$near",
        BHash([("$geometry", ToHash(point)), ("$maxDistance", maxMeters)]))]))])
  }

  /** `Place.near(point, max_meters)`: the raw documents the store's find
      returns for the filter. */
  function NearDocs(find: Bson -> seq<RawDoc>, point: Point, maxMeters: Bson): (docs: seq<RawDoc>)
    ensures exists q ::
      && docs == find(q)
      && Keys(q) == ["geometry.geolocation"]
      && Keys(Get(q, "geometry.geolocation")) == ["$near"]
      && Keys(Get(Get(q, "geometry.geolocation"), "$near")) == ["$geometry", "$maxDistance"]
      && Get(Get(Get(q, "geometry.geolocation"), "$near"), "$geometry") == ToHash(point)
      && Get(Get(Get(q, "geometry.geolocation"), "$near"), "$maxDistance") == maxMeters
  {
    var q := NearFilter(point, maxMeters);
    find(q)
  }

  /** `place.near(max_meters)`: the class-level search around the place's
      own location, each document mapped to a Place in cursor order. */
  function Near(place: Place, find: Bson -> seq<RawDoc>, maxMeters: Bson): (r: Result<seq<Place>, Error>)
    ensures var docs := find(NearFilter(place.location, maxMeters));
      && (r.Success? <==> forall i :: 0 <= i < |docs| ==> docs[i].geometry.Some?)
      && (r.Success? ==> |r.value| == |docs|)
      && (r.Success? ==> forall i :: 0 <= i < |docs| ==> NewPlace(docs[i]) == Success(r.value[i]))
  {
    ToPlaces(NearDocs(find, place.location, maxMeters))
  }
}
