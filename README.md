# Place model: aggregation pipelines, proximity filter and document mapping

A Dafny model of `app/models/place.rb`, the MongoDB-backed `Place` model of a
Rails application about geographic places (an address, a geolocation and a
list of address components such as street, city and country).

The file is mostly driver plumbing. What it decides for itself is modelled
here:

- **Aggregation pipelines** (`aggregation.dfy`). A pipeline is a list of
  `Stage` values (`Unwind`, `Project`, `Match`, `Group`, `Sort`, `Skip`,
  `Limit`). `RenderStage` writes a stage as the one-key hash the source
  writes literally, and `ParseStage` reads it back, so two different stage
  lists are never sent as the same array of hashes. This module builds:
  - the flattened-components pipeline of `get_address_components`: a fixed
    `$unwind`/`$project` prefix, then `$sort` when a sort document is given,
    `$skip` only when the offset is non-zero, and `$limit` when a limit is
    given;
  - the fixed four-stage pipeline of `get_country_names`;
  - the two-stage pipeline of `find_ids_by_country_code`, which has no
    `$unwind`.

  It also models the post-processing of each cursor (`_id` values, or `_id`
  values as strings).
- **Proximity filter** (`proximity.dfy`). This is the `$near` filter
  document, and the instance form of `near` that searches around the
  place's own location.
- **Document-to-entity mapping and paging** (`places.dfy`). This covers:
  - `Place.new`, which fails when `geometry` is missing and otherwise
    builds the place field by field;
  - `to_places`, which maps documents to Places one for one, in order;
  - `find` over an already parsed id;
  - `all` and `photos`, which apply skip and then an optional limit;
  - `persisted?`.

The store is not modelled. A collection is a sequence of raw documents in
store order. `cursors.dfy` treats skip and limit as sequence slicing. The
store's `aggregate` and `find`, and the photo lookup
`Photo.find_photos_for_place`, are function parameters. The model says which
pipeline or filter is passed to them and what is done with what they
return, not what the server computes. `documents.dfy` holds the BSON-style
values, Ruby's `to_s` on `_id` values and Ruby truthiness. `points.dfy`
stands in for the `Point` class, which is not part of this model: a point
keeps the GeoJSON hash it was built from.

`Place` is a datatype, not a class. The source assigns its fields only in
`initialize`, and nothing in the core changes them later. `Place.new` is
therefore a function that returns a `Result` and fails with
`MissingGeometry`. In Ruby that failure is the `NoMethodError` raised by
`nil[:geolocation]`.

`find_ids_by_country_code` writes its two `$match` conditions side by side
on the array field, not inside `$elemMatch`. MongoDB may therefore satisfy
them from two different components of one place: one whose `types` is
"country" and another whose `short_name` is the code. The model records the
conditions exactly as written and claims nothing about which places match.

## Model

| member | source | states |
|---|---|---|
| `Aggregation.RenderStage` | app/models/place.rb:69-84 | every stage is written as a hash with exactly one key, its operator (`$unwind`, `$project`, …), as in the literal stage hashes |
| `Aggregation.ParseRenderStage` | app/models/place.rb:69-84 | reading a stage hash back gives the stage it was written from: no two stages share a wire form |
| `Aggregation.RenderPipeline` | app/models/place.rb:86 | the array handed to `aggregate` has one hash per stage, in the same order |
| `Aggregation.ParseRenderPipeline` | app/models/place.rb:86 | a rendered pipeline reads back as the same list of stages |
| `Aggregation.RenderPipelineInjective` | app/models/place.rb:86 | two pipelines sent as the same array of hashes are the same pipeline |
| `Aggregation.GetAddressComponents` | app/models/place.rb:68-87 | appending to the fixed prototype (sort if the sort document is non-nil, skip if offset ≠ 0, limit if non-nil) and running it sends exactly the declarative pipeline `AddressComponentsStages` |
| `Aggregation.AddressComponentsPrefixFixed` | app/models/place.rb:69-80 | the first stage is `$unwind '$address_components'`, the second a `$project` of exactly `address_components`, `formatted_address`, `geometry.geolocation`; there is exactly one unwind and one project, and no match or group |
| `Aggregation.AddressComponentsCounts` | app/models/place.rb:69-84 | kind by kind, the pipeline holds one unwind, one project, one sort iff a sort is given, one skip iff offset ≠ 0, one limit iff a limit is given, nothing else |
| `Aggregation.AddressComponentsOptionalStages` | app/models/place.rb:82-84 | a `$sort` is present iff sort is non-nil, a `$skip` iff offset ≠ 0, a `$limit` iff limit is non-nil; the length is 2 plus the number of these conditions that hold |
| `Aggregation.AddressComponentsOrder` | app/models/place.rb:82-84 | after the prefix come only the optional stages the arguments ask for, each carrying its argument, in the strict order sort, skip, limit |
| `Aggregation.AddressComponentsDefaults` | app/models/place.rb:68 | the default arguments `(nil, 0, nil)` give exactly the two-stage prefix |
| `Aggregation.CountryNamesShape` | app/models/place.rb:91-111 | exactly four stages: unwind of `address_components`, project of `long_name` and `types`, match `types == "country"`, group on `$address_components.long_name`; one of each of these kinds and no sort, skip or limit |
| `Aggregation.GetCountryNames` | app/models/place.rb:113-115 | the result is the `_id` of each document the country-names pipeline returns, one per document, in cursor order |
| `Aggregation.IdsByCountryCodeShape` | app/models/place.rb:120-132 | exactly two stages and no unwind: a match requiring `types == "country"` and `short_name == code`, then a projection of `_id` alone |
| `Aggregation.FindIdsByCountryCode` | app/models/place.rb:134-135 | the result is each returned document's `_id` converted with `to_s`, one per document, in cursor order |
| `Places.NewPlace` | app/models/place.rb:7-12 | fails iff `geometry` is missing; otherwise the id is `_id.to_s` (`""` for a missing `_id`), the address is copied, the location is built from `geometry.geolocation`, and the components are absent iff absent in the document, else built one for one in order |
| `Places.ToPlaces` | app/models/place.rb:36-40 | succeeds iff every document has a geometry; then one Place per document, the i-th built from the i-th; on failure the error is that of the first document that cannot be built |
| `Places.FirstWithId` | app/models/place.rb:45 | finds the first document in store order whose `_id` equals the id, or reports that none has it |
| `Places.Find` | app/models/place.rb:43-52 | returns absence, not an error, exactly when no document has the id; otherwise the Place built from the first document in store order with that id, or that document's construction error |
| `Places.All` | app/models/place.rb:55-59 | the result is the Places of the collection after skipping `offset` and, only when a limit is given, keeping at most `limit`; the i-th Place is built from document `offset + i` |
| `Places.Photos` | app/models/place.rb:169-181 | one Photo per document of the photo cursor after skip and optional limit, in order, the i-th built from photo document `offset + i`; the count guard never filters |
| `Documents.IntegersAreTruthy` | app/models/place.rb:174 | any integer count, zero included, passes the `if photos.count` guard |
| `Cursors.PageContents` | app/models/place.rb:56-57 | a page holds the elements from `offset` on, in order, and its length is what remains after the skip, capped by the limit when one is given |
| `Places.NewPlaceNeverPersisted` | app/models/place.rb:184-186 | every place built from a document has a non-nil string id, so `persisted?` as written is false for all of them |
| `Places.StoredPlaceReportsUnsaved` | app/models/place.rb:184-186 | a place built from a stored document carrying an object id still answers false to `persisted?` |
| `Places.NewPlacePersistedIntended` | app/models/place.rb:184-186 | under the intended reading, a built place counts as saved exactly when its document carried a non-nil, non-empty `_id` |
| `Proximity.NearFilter` | app/models/place.rb:149-157 | the filter has the single key `geometry.geolocation`, whose only key is `$near`, whose keys are `$geometry` (the point's `to_hash`) and `$maxDistance` (the given maximum, nil passed on as nil) |
| `Proximity.NearDocs` | app/models/place.rb:149-160 | the class-level `near` returns, unchanged, the store's find cursor for a filter whose only key is `geometry.geolocation`, holding only `$near`, which holds exactly `$geometry` (the point's `to_hash`) and `$maxDistance` (the given maximum, nil kept) |
| `Proximity.Near` | app/models/place.rb:163-166 | the instance search sends the filter built from the place's own location and maps every returned document to a Place, one for one in order, failing iff some document lacks a geometry |

## Left out

- `mongo_client` and `collection` (app/models/place.rb:15-22): connection and collection handles are driver plumbing.
- `load_all` (app/models/place.rb:25-28): JSON parsing and `insert_many` are foreign I/O with no logic of their own.
- `find_by_short_name` (app/models/place.rb:31-33): a one-line find whose matching is done by the server.
- `destroy` (app/models/place.rb:62-65): `BSON::ObjectId.from_string` and `delete_one` belong to the driver.
- Places.Find: takes an id that is already parsed. Parsing the id string with `BSON::ObjectId.from_string`, and the error it raises on a malformed string, belong to the BSON library, which is not part of this model.
- `create_indexes` and `remove_indexes` (app/models/place.rb:139-146): administrative driver calls.
- What the server computes: `$unwind`, `$project`, `$match`, `$group` and `$sort` on the aggregation side, and distance and ordering for `$near`. No deduplication or distance-ordering guarantee is claimed. The store's calls are parameters.
- `Point`, `AddressComponent` and `Photo` are not part of this model. Each is a wrapper around the hash or document it was built from. A `geometry` without `geolocation` gives a point around nil, because what `Point.new(nil)` does is decided in code this model does not have.
- The Mongoid and ActiveModel mixins (app/models/place.rb:2-3).
- Offsets and limits are natural numbers; negative offsets and limits are outside the model.
- `limit(0)`: MongoDB reads it as "no limit", but the model slices to zero elements.
- Places.All: `all` sends `skip(0)` even when the offset is zero. Slicing by zero is the identity, so that distinction is visible only in the method body. The aggregation builder leaves `$skip` out at offset zero, and that is proved.
- Store errors: `aggregate`, `find` and the photo lookup are total functions in the model, so the errors the store can raise (network, query syntax, a missing geospatial index), which this code lets propagate unchanged, do not occur in the model.
- Coordinate round trip: that a place's location gives back the coordinates of its document's `geometry.geolocation` belongs to `Point#to_hash`, which is not modelled; the model states only that the location is `Point.new` of that value (`NewPlace`).
- Cursors are materialised as sequences. Laziness, paging from the network, and whether a cursor can be read twice are not modelled.
- Documents are typed. A document whose `address_components` is not an array, or whose `geometry` is not a hash, cannot be expressed.

## Findings

| source | as written | input that shows it | evidently intended | confidence | as-written member | corrected member |
|---|---|---|---|---|---|---|
| app/models/place.rb:184-186 | `persisted?` returns `@id.nil?`. `initialize` always sets `@id` to a string, so the answer is false for every place, including places loaded from the store | a stored document with `_id` an object id (`5a0c2b9f8d1e4a0001a1b2c3`), built with `Place.new`: `persisted?` is false | true once the place carries a store-assigned id, i.e. a non-nil, non-empty `id` | medium; not executed | `Places.StoredPlaceReportsUnsaved` | `Places.NewPlacePersistedIntended` |
