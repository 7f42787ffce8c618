/** The shapes of data that pass between the Place model and the document
    store: BSON-style documents, the scalar values an `_id` field holds, and
    the rows an aggregation or find cursor yields. */
module Documents {

  /** A document value as the driver sends or receives it. A hash keeps its
      entries in insertion order, as Ruby hashes do. */
  datatype Bson =
    | BNil
    | BBool(b: bool)
    | BInt(i: int)
    | BReal(r: real)
    | BStr(s: string)
    | BOid(hex: string)
    | BArray(items: seq<Bson>)
    | BHash(entries: seq<(string, Bson)>)

  /** The keys of a hash, in order; a non-hash has none. */
  function Keys(b: Bson): (ks: seq<string>)
    ensures b.BHash? ==> |ks| == |b.entries|
    ensures b.BHash? ==> forall i :: 0 <= i < |ks| ==> ks[i] == b.entries[i].0
    ensures !b.BHash? ==> ks == []
  {
    if b.BHash? then seq(|b.entries|, i requires 0 <= i < |b.entries| => b.entries[i].0) else []
  }

  /** The value stored under `key` in a list of hash entries (the first one
      wins), or nil when the key is absent, like Ruby's `Hash#[]`. */
  function Lookup(entries: seq<(string, Bson)>, key: string): (v: Bson)
    ensures v != BNil ==> exists i :: 0 <= i < |entries| && entries[i] == (key, v)
    ensures (forall i :: 0 <= i < |entries| ==> entries[i].0 != key) ==> v == BNil
    ensures |entries| > 0 && entries[0].0 == key ==> v == entries[0].1
  {
    if |entries| == 0 then BNil
    else if entries[0].0 == key then entries[0].1
    else Lookup(entries[1..], key)
  }

  /** `doc[key]` on a hash; nil on anything else. */
  function Get(b: Bson, key: string): Bson {
    if b.BHash? then Lookup(b.entries, key) else BNil
  }

  /** Ruby truthiness: everything except `nil` and `false` is true. */
  predicate Truthy(v: Bson) {
    !(v.BNil? || v == BBool(false))
  }

  /** Every integer is truthy in Ruby, zero included. */
  lemma IntegersAreTruthy(n: int)
    ensures Truthy(BInt(n))
  {
  }

  /** What an `_id` field or a `$group` key holds: nothing, a string, or a
      store-assigned object id (kept as its hexadecimal spelling). */
  datatype Value = Nil | Str(s: string) | ObjectId(hex: string)

  /** Ruby's `to_s` on such a value: `nil.to_s` is the empty string, a
      string is itself and an object id is its hexadecimal text. */
  function ToS(v: Value): string {
    match v
    case Nil => ""
    case Str(s) => s
    case ObjectId(hex) => hex
  }

  /** A document a cursor yields, seen through its `_id` field and the rest
      of its fields. */
  datatype Row = Row(id: Value, fields: Bson)
}
