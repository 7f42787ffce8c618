/** The Place entity and its repository operations: building a Place from a
    stored document, mapping a cursor to Places, lookup by id, paging
    through the collection, the photos of a place, and `persisted?`. The
    collection is a sequence of raw documents in store order. */
module Places {
  import opened Wrappers
  import opened Documents
  import opened Points
  import opened Cursors

  /** The `geometry` sub-document of a stored place. */
  datatype Geometry = Geometry(geolocation: Bson)

  /** A stored place document; a field that may be missing is an Option
      (or `Nil` for `_id`). Address components stay raw hashes. */
  datatype RawDoc = RawDoc(
    id: Value,
    formattedAddress: Option<string>,
    geometry: Option<Geometry>,
    addressComponents: Option<seq<Bson>>)

  /** An address component wraps the raw record it was built from; its own
      class is not part of this model. */
  datatype AddressComponent = AddressComponent(raw: Bson)

  /** A place as the application sees it. `id` is an Option because the
      attribute is writable and may hold nil; `addressComponents` is None
      when the document had none. */
  datatype Place = Place(
    id: Option<string>,
    formattedAddress: Option<string>,
    location: Point,
    addressComponents: Option<seq<AddressComponent>>)

  /** Reading `[:geolocation]` of a missing `geometry` raises in Ruby. */
  datatype Error = MissingGeometry

  datatype Photo = Photo(doc: Bson)

  /** `Photo.new(doc)`. */
  function NewPhoto(doc: Bson): Photo {
    Photo(doc)
  }

  /** `Place.new(doc)`: fails exactly when `geometry` is missing. Otherwise
      the id is the `_id` as a string (empty for a missing `_id`), the
      address is copied, the location is built from `geometry.geolocation`,
      and the components are absent for a document without them and are
      otherwise built one for one, in order. */
  function NewPlace(d: RawDoc): (r: Result<Place, Error>)
    ensures r.Success? <==> d.geometry.Some?
    ensures r.Failure? ==> r.error == MissingGeometry
    ensures r.Success? ==> r.value.id == Some(ToS(d.id))
    ensures r.Success? && d.id == Nil ==> r.value.id == Some("")
    ensures r.Success? ==> r.value.formattedAddress == d.formattedAddress
    ensures r.Success? ==> r.value.location == NewPoint(d.geometry.value.geolocation)
    ensures r.Success? ==> (r.value.addressComponents.None? <==> d.addressComponents.None?)
    ensures r.Success? && d.addressComponents.Some? ==>
      var raw := d.addressComponents.value;
      var built := r.value.addressComponents.value;
      |built| == |raw| && forall i :: 0 <= i < |raw| ==> built[i] == AddressComponent(raw[i])
  {
    if d.geometry.None? then Failure(MissingGeometry)
    else
      var components :=
        if d.addressComponents.None? then None
        else
          var raw := d.addressComponents.value;
          Some(seq(|raw|, i requires 0 <= i < |raw| => AddressComponent(raw[i])));
      Success(Place(Some(ToS(d.id)), d.formattedAddress, NewPoint(d.geometry.value.geolocation), components))
  }

  /** `to_places`: one Place per document, in order. Like Ruby's `map`, it
      stops at the first document that cannot be built and reports that
      document's error. */
  function ToPlaces(docs: seq<RawDoc>): (r: Result<seq<Place>, Error>)
    ensures r.Success? <==> forall i :: 0 <= i < |docs| ==> docs[i].geometry.Some?
    ensures r.Success? ==> |r.value| == |docs|
    ensures r.Success? ==> forall i :: 0 <= i < |docs| ==> NewPlace(docs[i]) == Success(r.value[i])
    ensures r.Failure? ==>
      exists k :: 0 <= k < |docs| && NewPlace(docs[k]) == Failure(r.error)
        && forall j :: 0 <= j < k ==> NewPlace(docs[j]).Success?
  {
    if docs == [] then Success([])
    else match NewPlace(docs[0])
      case Failure(e) => Failure(e)
      case Success(p) =>
        match ToPlaces(docs[1..])
        case Failure(e) =>
          ghost var k :| 0 <= k < |docs[1..]| && NewPlace(docs[1..][k]) == Failure(e)
            && forall j :: 0 <= j < k ==> NewPlace(docs[1..][j]).Success?;
          assert NewPlace(docs[k + 1]) == Failure(e);
          assert forall j :: 0 <= j < k + 1 ==> NewPlace(docs[j]).Success? by {
            forall j | 0 <= j < k + 1 ensures NewPlace(docs[j]).Success? {
              if j > 0 { assert docs[j] == docs[1..][j - 1]; }
            }
          }
          Failure(e)
        case Success(ps) => Success([p] + ps)
  }

  /** The position of the first document with the given `_id`, in store
      order, if there is one. */
  function FirstWithId(collection: seq<RawDoc>, id: Value): (r: Option<nat>)
    ensures r.None? <==> forall i :: 0 <= i < |collection| ==> collection[i].id != id
    ensures r.Some? ==> r.value < |collection| && collection[r.value].id == id
    ensures r.Some? ==> forall j :: 0 <= j < r.value ==> collection[j].id != id
  {
    if collection == [] then None
    else if collection[0].id == id then Some(0)
    else match FirstWithId(collection[1..], id)
      case None => None
      case Some(k) => Some(k + 1)
  }

  /** `Place.find(id)` for an already parsed id: absence (not an error)
      when no document has that `_id`, otherwise the Place built from the
      first such document. */
  function Find(collection: seq<RawDoc>, id: Value): (r: Result<Option<Place>, Error>)
    ensures r == Success(None) <==> forall i :: 0 <= i < |collection| ==> collection[i].id != id
    ensures r.Success? && r.value.Some? ==>
      exists k :: 0 <= k < |collection| && collection[k].id == id
        && (forall j :: 0 <= j < k ==> collection[j].id != id)
        && NewPlace(collection[k]) == Success(r.value.value)
    ensures r.Failure? ==>
      exists k :: 0 <= k < |collection| && collection[k].id == id
        && (forall j :: 0 <= j < k ==> collection[j].id != id)
        && collection[k].geometry.None?
  {
    match FirstWithId(collection, id)
    case None => Success(None)
    case Some(k) =>
      match NewPlace(collection[k])
      case Success(p) => Success(Some(p))
      case Failure(e) => Failure(e)
  }

  /** `Place.all(offset, limit)`: skip is always applied, limit only when
      given, and the page is mapped to Places. */
  method All(collection: seq<RawDoc>, offset: nat, limit: Option<nat>)
    returns (places: Result<seq<Place>, Error>)
    ensures places == ToPlaces(Page(collection, offset, limit))
    ensures places.Success? && limit.Some? ==> |places.value| <= limit.value
    ensures places.Success? ==> forall i :: 0 <= i < |places.value| ==>
      offset + i < |collection| && NewPlace(collection[offset + i]) == Success(places.value[i])
  {
    var result := OpenView(collection).Skip(offset);
    if limit.Some? {
      result := result.Limit(limit.value);
    }
    places := ToPlaces(result.ToA());
    PageContents(collection, offset, limit);
  }

  /** `place.photos(offset, limit)`: the photos stored for this place's id,
      paged like `all`, one Photo per returned document, in order. The
      `if photos.count` guard never filters: a count is an integer, and
      every Ruby integer is truthy. */
  method Photos(place: Place, photosFor: Option<string> -> seq<Bson>, offset: nat, limit: Option<nat>)
    returns (result: seq<Photo>)
    ensures var page := Page(photosFor(place.id), offset, limit);
      |result| == |page| && forall i :: 0 <= i < |page| ==> result[i] == NewPhoto(page[i])
    ensures forall i :: 0 <= i < |result| ==>
      offset + i < |photosFor(place.id)| && result[i] == NewPhoto(photosFor(place.id)[offset + i])
  {
    result := [];
    var photos := OpenView(photosFor(place.id)).Skip(offset);
    if limit.Some? {
      photos := photos.Limit(limit.value);
    }
    IntegersAreTruthy(photos.Count());
    if Truthy(BInt(photos.Count())) {
      var docs := photos.ToA();
      var i := 0;
      while i < |docs|
        invariant 0 <= i <= |docs|
        invariant |result| == i
        invariant forall k :: 0 <= k < i ==> result[k] == NewPhoto(docs[k])
      {
        result := result + [NewPhoto(docs[i])];
        i := i + 1;
      }
    }
    PageContents(photosFor(place.id), offset, limit);
  }

  /** `persisted?` as written: `@id.nil?`. */
  predicate Persisted(p: Place) {
    p.id.None?
  }

  /** Every place built from a document has a string id, so `persisted?`
      as written answers false for all of them. */
  lemma NewPlaceNeverPersisted(d: RawDoc)
    requires d.geometry.Some?
    ensures NewPlace(d).Success? && !Persisted(NewPlace(d).value)
  {
  }

  /** A place loaded from the store, carrying its store-assigned object id,
      still reports that it has not been saved. */
  lemma StoredPlaceReportsUnsaved()
    ensures var geolocation := BHash([("type", BStr("Point")), ("coordinates", BArray([BReal(-76.6), BReal(39.3)]))]);
      var d := RawDoc(ObjectId("5a0c2b9f8d1e4a0001a1b2c3"), Some("Main St"), Some(Geometry(geolocation)), None);
      NewPlace(d).Success? && NewPlace(d).value.id == Some("5a0c2b9f8d1e4a0001a1b2c3")
        && !Persisted(NewPlace(d).value)
  {
  }

  /** `persisted?` as evidently intended: the place carries a
      store-assigned, non-empty id. */
  predicate PersistedIntended(p: Place) {
    p.id.Some? && p.id.value != ""
  }

  /** Under the intended reading a place built from a document counts as
      saved exactly when that document carried an `_id`. */
  lemma NewPlacePersistedIntended(d: RawDoc)
    requires d.geometry.Some?
    requires d.id.ObjectId? ==> d.id.hex != ""
    ensures NewPlace(d).Success?
    ensures PersistedIntended(NewPlace(d).value) <==> (d.id != Nil && d.id != Str(""))
  {
  }
}
