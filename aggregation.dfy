/** The aggregation pipelines `Place` sends to the store: stages as data, the
    hashes they are written as, the three pipeline templates, and the three
    calls that run them and post-process their cursors. */
module Aggregation {
  import opened Wrappers
  import opened Documents

  /** One pipeline stage. `Project` lists the fields it keeps (each written
      as `field => 1`), `Match` lists its field/value conditions in order,
      `Group` holds the expression of its `_id` key, and `Sort` carries the
      caller's sort document unchanged. */
  datatype Stage =
    | Unwind(path: string)
    | Project(fields: seq<string>)
    | Match(conds: seq<(string, string)>)
    | Group(key: string)
    | Sort(spec: Bson)
    | Skip(count: nat)
    | Limit(count: nat)

  datatype StageKind =
    UnwindStage | ProjectStage | MatchStage | GroupStage | SortStage | SkipStage | LimitStage

  function KindOf(s: Stage): StageKind {
    match s
    case Unwind(_) => UnwindStage
    case Project(_) => ProjectStage
    case Match(_) => MatchStage
    case Group(_) => GroupStage
    case Sort(_) => SortStage
    case Skip(_) => SkipStage
    case Limit(_) => LimitStage
  }

  /** The operator key a stage of kind `k` is written under. */
  function Operator(k: StageKind): string {
    match k
    case UnwindStage => "$unwind"
    case ProjectStage => "$project"
    case MatchStage => "$match"
    case GroupStage => "$group"
    case SortStage => "$sort"
    case SkipStage => "$skip"
    case LimitStage => "$limit"
  }

  function Indicator(b: bool): nat {
    if b then 1 else 0
  }

  /** How many stages of kind `k` the pipeline `p` has. */
  function CountKind(p: seq<Stage>, k: StageKind): nat {
    if p == [] then 0 else Indicator(KindOf(p[0]) == k) + CountKind(p[1..], k)
  }

  /** The pipeline `p` has a stage of kind `k`. */
  predicate HasKind(p: seq<Stage>, k: StageKind) {
    exists i :: 0 <= i < |p| && KindOf(p[i]) == k
  }

  lemma {:induction false} CountKindConcat(p: seq<Stage>, q: seq<Stage>, k: StageKind)
    ensures CountKind(p + q, k) == CountKind(p, k) + CountKind(q, k)
  {
    if p == [] {
      assert p + q == q;
    } else {
      assert (p + q)[1..] == p[1..] + q;
      CountKindConcat(p[1..], q, k);
    }
  }

  /** A stage of a kind is present exactly when its count is positive. */
  lemma {:induction false} CountKindPositive(p: seq<Stage>, k: StageKind)
    ensures CountKind(p, k) > 0 <==> HasKind(p, k)
  {
    if p != [] {
      CountKindPositive(p[1..], k);
      if HasKind(p[1..], k) {
        var i :| 0 <= i < |p[1..]| && KindOf(p[1..][i]) == k;
        assert KindOf(p[i + 1]) == k;
      }
      if HasKind(p, k) && KindOf(p[0]) != k {
        var i :| 0 <= i < |p| && KindOf(p[i]) == k;
        assert KindOf(p[1..][i - 1]) == k;
      }
    }
  }

  // ---------------------------------------------------------------------
  // Stages as the hashes the source writes

  /** The `{field => 1, ...}` body of a `$project` stage. */
  function FieldEntries(fields: seq<string>): seq<(string, Bson)> {
    if fields == [] then [] else [(fields[0], BInt(1))] + FieldEntries(fields[1..])
  }

  function ParseFieldEntries(es: seq<(string, Bson)>): Option<seq<string>> {
    if es == [] then Some([])
    else if es[0].1 != BInt(1) then None
    else match ParseFieldEntries(es[1..])
      case Some(rest) => Some([es[0].0] + rest)
      case None => None
  }

  /** The `{field => value, ...}` body of a `$match` stage. */
  function CondEntries(conds: seq<(string, string)>): seq<(string, Bson)> {
    if conds == [] then [] else [(conds[0].0, BStr(conds[0].1))] + CondEntries(conds[1..])
  }

  function ParseCondEntries(es: seq<(string, Bson)>): Option<seq<(string, string)>> {
    if es == [] then Some([])
    else if !es[0].1.BStr? then None
    else match ParseCondEntries(es[1..])
      case Some(rest) => Some([(es[0].0, es[0].1.s)] + rest)
      case None => None
  }

  lemma {:induction false} ParseFieldEntriesRoundTrip(fields: seq<string>)
    ensures ParseFieldEntries(FieldEntries(fields)) == Some(fields)
  {
    if fields != [] {
      assert FieldEntries(fields)[1..] == FieldEntries(fields[1..]);
      ParseFieldEntriesRoundTrip(fields[1..]);
      assert [fields[0]] + fields[1..] == fields;
    }
  }

  lemma {:induction false} ParseCondEntriesRoundTrip(conds: seq<(string, string)>)
    ensures ParseCondEntries(CondEntries(conds)) == Some(conds)
  {
    if conds != [] {
      assert CondEntries(conds)[1..] == CondEntries(conds[1..]);
      ParseCondEntriesRoundTrip(conds[1..]);
      assert [(conds[0].0, conds[0].1)] + conds[1..] == conds;
    }
  }

  /** The hash a stage is written as: a single key, the stage's operator. */
  function RenderStage(s: Stage): (d: Bson)
    ensures Keys(d) == [Operator(KindOf(s))]
  {
    match s
    case Unwind(path) => BHash([("$unwind", BStr(path))])
    case Project(fields) => BHash([("$project", BHash(FieldEntries(fields)))])
    case Match(conds) => BHash([("$match", BHash(CondEntries(conds)))])
    case Group(key) => BHash([("$group", BHash([("_id", BStr(key))]))])
    case Sort(spec) => BHash([("$sort", spec)])
    case Skip(n) => BHash([("$skip", BInt(n))])
    case Limit(n) => BHash([("$limit", BInt(n))])
  }

  /** Reads a stage back from its hash; None for a hash no stage renders to. */
  function ParseStage(d: Bson): Option<Stage> {
    if !d.BHash? || |d.entries| != 1 then None
    else
      var op := d.entries[0].0;
      var arg := d.entries[0].1;
      if op == "$unwind" then
        (if arg.BStr? then Some(Unwind(arg.s)) else None)
      else if op == "$project" then
        (if !arg.BHash? then None
         else match ParseFieldEntries(arg.entries)
           case Some(fields) => Some(Project(fields))
           case None => None)
      else if op == "$match" then
        (if !arg.BHash? then None
         else match ParseCondEntries(arg.entries)
           case Some(conds) => Some(Match(conds))
           case None => None)
      else if op == "$group" then
        (if arg.BHash? && |arg.entries| == 1 && arg.entries[0].0 == "_id" && arg.entries[0].1.BStr?
         then Some(Group(arg.entries[0].1.s)) else None)
      else if op == "$sort" then Some(Sort(arg))
      else if op == "$skip" then
        (if arg.BInt? && arg.i >= 0 then Some(Skip(arg.i)) else None)
      else if op == "$limit" then
        (if arg.BInt? && arg.i >= 0 then Some(Limit(arg.i)) else None)
      else None
  }

  /** Every stage is read back from its hash unchanged, so two different
      stages never share a wire form. */
  lemma ParseRenderStage(s: Stage)
    ensures ParseStage(RenderStage(s)) == Some(s)
  {
    match s
    case Project(fields) => ParseFieldEntriesRoundTrip(fields);
    case Match(conds) => ParseCondEntriesRoundTrip(conds);
    case _ =>
  }

  /** The array of stage hashes handed to `aggregate`. */
  function RenderPipeline(p: seq<Stage>): (docs: seq<Bson>)
    ensures |docs| == |p|
    ensures forall i :: 0 <= i < |p| ==> docs[i] == RenderStage(p[i])
  {
    if p == [] then [] else [RenderStage(p[0])] + RenderPipeline(p[1..])
  }

  function ParsePipeline(docs: seq<Bson>): Option<seq<Stage>> {
    if docs == [] then Some([])
    else match (ParseStage(docs[0]), ParsePipeline(docs[1..]))
      case (Some(s), Some(rest)) => Some([s] + rest)
      case _ => None
  }

  lemma {:induction false} ParseRenderPipeline(p: seq<Stage>)
    ensures ParsePipeline(RenderPipeline(p)) == Some(p)
  {
    if p != [] {
      ParseRenderStage(p[0]);
      assert RenderPipeline(p)[1..] == RenderPipeline(p[1..]);
      ParseRenderPipeline(p[1..]);
      assert [p[0]] + p[1..] == p;
    }
  }

  /** Pipelines that are sent as the same array of hashes are the same
      pipeline: what is proved below about stages holds of what is sent. */
  lemma RenderPipelineInjective(p: seq<Stage>, q: seq<Stage>)
    requires RenderPipeline(p) == RenderPipeline(q)
    ensures p == q
  {
    ParseRenderPipeline(p);
    ParseRenderPipeline(q);
  }

  // ---------------------------------------------------------------------
  // get_address_components

  /** The fixed head of the flattened-components pipeline. */
  function AddressComponentsPrefix(): seq<Stage> {
    [Unwind("$address_components"),
     Project(["address_components", "formatted_address", "geometry.geolocation"])]
  }

  /** The flattened-components pipeline for a sort document (nil for none),
      an offset and an optional limit, assembled declaratively. */
  function AddressComponentsStages(sort: Bson, offset: nat, limit: Option<nat>): seq<Stage> {
    AddressComponentsPrefix()
      + (if !sort.BNil? then [Sort(sort)] else [])
      + (if offset != 0 then [Skip(offset)] else [])
      + (if limit.Some? then [Limit(limit.value)] else [])
  }

  /** Builds the pipeline the way the source does, by appending to a fixed
      prototype, and runs it. */
  method GetAddressComponents(aggregate: seq<Bson> -> seq<Row>, sort: Bson, offset: nat, limit: Option<nat>)
    returns (cursor: seq<Row>)
    ensures cursor == aggregate(RenderPipeline(AddressComponentsStages(sort, offset, limit)))
  {
    var prototype := [
      Unwind("$address_components"),
      Project(["address_components", "formatted_address", "geometry.geolocation"])
    ];
    assert prototype == AddressComponentsPrefix();
    if !sort.BNil? {
      prototype := prototype + [Sort(sort)];
    }
    assert prototype == AddressComponentsPrefix() + (if !sort.BNil? then [Sort(sort)] else []);
    if offset != 0 {
      prototype := prototype + [Skip(offset)];
    }
    assert prototype == AddressComponentsPrefix() + (if !sort.BNil? then [Sort(sort)] else [])
      + (if offset != 0 then [Skip(offset)] else []);
    if limit.Some? {
      prototype := prototype + [Limit(limit.value)];
    }
    assert prototype == AddressComponentsStages(sort, offset, limit);
    cursor := aggregate(RenderPipeline(prototype));
  }

  /** The rank of an optional stage in the order sort, skip, limit. */
  function Rank(s: Stage): nat {
    match s
    case Sort(_) => 0
    case Skip(_) => 1
    case Limit(_) => 2
    case _ => 3
  }

  /** `s` is one of the optional stages the arguments call for, carrying
      the argument it was made from. */
  predicate IsOptionalStageFor(s: Stage, sort: Bson, offset: nat, limit: Option<nat>) {
    || (s.Sort? && !sort.BNil? && s.spec == sort)
    || (s.Skip? && offset != 0 && s.count == offset)
    || (s.Limit? && limit == Some(s.count))
  }

  /** The pipeline always starts with the unwind of `address_components`
      followed by the projection of exactly the three fields, and holds no
      other unwind or projection, and no match or group. */
  lemma AddressComponentsPrefixFixed(sort: Bson, offset: nat, limit: Option<nat>, p: seq<Stage>)
    requires p == AddressComponentsStages(sort, offset, limit)
    ensures |p| >= 2
    ensures p[0] == Unwind("$address_components")
    ensures p[1] == Project(["address_components", "formatted_address", "geometry.geolocation"])
    ensures CountKind(p, UnwindStage) == 1 && CountKind(p, ProjectStage) == 1
    ensures CountKind(p, MatchStage) == 0 && CountKind(p, GroupStage) == 0
  {
    AddressComponentsCounts(sort, offset, limit, p);
  }

  /** Each optional stage is present exactly when its argument asks for it
      (a sort document, a non-zero offset, a limit), at most once, and the
      pipeline has two stages plus one per condition that holds. */
  lemma AddressComponentsOptionalStages(sort: Bson, offset: nat, limit: Option<nat>, p: seq<Stage>)
    requires p == AddressComponentsStages(sort, offset, limit)
    ensures |p| == 2 + Indicator(!sort.BNil?) + Indicator(offset != 0) + Indicator(limit.Some?)
    ensures CountKind(p, SortStage) == Indicator(!sort.BNil?)
    ensures CountKind(p, SkipStage) == Indicator(offset != 0)
    ensures CountKind(p, LimitStage) == Indicator(limit.Some?)
    ensures HasKind(p, SortStage) <==> !sort.BNil?
    ensures HasKind(p, SkipStage) <==> offset != 0
    ensures HasKind(p, LimitStage) <==> limit.Some?
  {
    AddressComponentsCounts(sort, offset, limit, p);
    CountKindPositive(p, SortStage);
    CountKindPositive(p, SkipStage);
    CountKindPositive(p, LimitStage);
  }

  /** How many stages of kind `k` the flattened-components pipeline should
      hold for these arguments. */
  function ExpectedCount(k: StageKind, sort: Bson, offset: nat, limit: Option<nat>): nat {
    match k
    case UnwindStage => 1
    case ProjectStage => 1
    case SortStage => Indicator(!sort.BNil?)
    case SkipStage => Indicator(offset != 0)
    case LimitStage => Indicator(limit.Some?)
    case _ => 0
  }

  /** The stage counts of the pipeline, kind by kind. */
  lemma AddressComponentsCounts(sort: Bson, offset: nat, limit: Option<nat>, p: seq<Stage>)
    requires p == AddressComponentsStages(sort, offset, limit)
    ensures forall k :: CountKind(p, k) == ExpectedCount(k, sort, offset, limit)
  {
    var s := if !sort.BNil? then [Sort(sort)] else [];
    var o := if offset != 0 then [Skip(offset)] else [];
    var l := if limit.Some? then [Limit(limit.value)] else [];
    forall k: StageKind
      ensures CountKind(p, k) == ExpectedCount(k, sort, offset, limit)
    {
      CountKindConcat(AddressComponentsPrefix(), s, k);
      CountKindConcat(AddressComponentsPrefix() + s, o, k);
      CountKindConcat(AddressComponentsPrefix() + s + o, l, k);
      assert CountKind(AddressComponentsPrefix(), k) == Indicator(k == UnwindStage) + Indicator(k == ProjectStage) by {
        var pre := AddressComponentsPrefix();
        assert pre[1..][1..] == [];
      }
    }
  }

  /** After the fixed prefix come only the optional stages the arguments
      call for, in the order sort, skip, limit. */
  lemma AddressComponentsOrder(sort: Bson, offset: nat, limit: Option<nat>, p: seq<Stage>)
    requires p == AddressComponentsStages(sort, offset, limit)
    ensures forall i :: 2 <= i < |p| ==> IsOptionalStageFor(p[i], sort, offset, limit)
    ensures forall i, j :: 2 <= i < j < |p| ==> Rank(p[i]) < Rank(p[j])
  {
  }

  /** With the default arguments `(nil, 0, nil)` the pipeline is the
      two-stage prefix alone. */
  lemma AddressComponentsDefaults()
    ensures AddressComponentsStages(BNil, 0, None) == AddressComponentsPrefix()
  {
  }

  // ---------------------------------------------------------------------
  // get_country_names

  function CountryNamesStages(): seq<Stage> {
    [Unwind("$address_components"),
     Project(["address_components.long_name", "address_components.types"]),
     Match([("address_components.types", "country")]),
     Group("$address_components.long_name")]
  }

  /** Four stages, one each of unwind, project, match and group in that
      order, so the filter on `types` runs on unwound components. */
  lemma CountryNamesShape(p: seq<Stage>)
    requires p == CountryNamesStages()
    ensures |p| == 4
    ensures p[0] == Unwind("$address_components")
    ensures p[1] == Project(["address_components.long_name", "address_components.types"])
    ensures p[2] == Match([("address_components.types", "country")])
    ensures p[3] == Group("$address_components.long_name")
    ensures forall k :: CountKind(p, k) == Indicator(k != SortStage && k != SkipStage && k != LimitStage)
  {
    var q3 := [p[3]];
    var q2 := [p[2]] + q3;
    var q1 := [p[1]] + q2;
    assert p == [p[0]] + q1;
    forall k: StageKind
      ensures CountKind(p, k) == Indicator(k != SortStage && k != SkipStage && k != LimitStage)
    {
      assert CountKind(q3, k) == Indicator(k == GroupStage) by { assert q3[1..] == []; }
      assert CountKind(q2, k) == Indicator(k == MatchStage) + CountKind(q3, k) by { assert q2[1..] == q3; }
      assert CountKind(q1, k) == Indicator(k == ProjectStage) + CountKind(q2, k) by { assert q1[1..] == q2; }
      assert CountKind(p, k) == Indicator(k == UnwindStage) + CountKind(q1, k) by { assert p[1..] == q1; }
    }
  }

  /** `get_country_names`: one group key per result document, in cursor
      order. */
  function GetCountryNames(aggregate: seq<Bson> -> seq<Row>): (names: seq<Value>)
    ensures var rows := aggregate(RenderPipeline(CountryNamesStages()));
      |names| == |rows| && forall i :: 0 <= i < |rows| ==> names[i] == rows[i].id
  {
    var rows := aggregate(RenderPipeline(CountryNamesStages()));
    seq(|rows|, i requires 0 <= i < |rows| => rows[i].id)
  }

  // ---------------------------------------------------------------------
  // find_ids_by_country_code

  function IdsByCountryCodeStages(code: string): seq<Stage> {
    [Match([("address_components.types", "country"), ("address_components.short_name", code)]),
     Project(["_id"])]
  }

  /** Two stages and no unwind: a match requiring a country component with
      the given short name, then a projection of `_id` alone. */
  lemma IdsByCountryCodeShape(code: string, p: seq<Stage>)
    requires p == IdsByCountryCodeStages(code)
    ensures |p| == 2
    ensures !HasKind(p, UnwindStage)
    ensures p[0].Match? && p[0].conds == [("address_components.types", "country"), ("address_components.short_name", code)]
    ensures p[1] == Project(["_id"])
  {
    assert p[1..][1..] == [];
    CountKindPositive(p, UnwindStage);
  }

  /** `find_ids_by_country_code`: each result document's `_id` as a string,
      one per document, in cursor order. */
  function FindIdsByCountryCode(aggregate: seq<Bson> -> seq<Row>, code: string): (ids: seq<string>)
    ensures var rows := aggregate(RenderPipeline(IdsByCountryCodeStages(code)));
      |ids| == |rows| && forall i :: 0 <= i < |rows| ==> ids[i] == ToS(rows[i].id)
  {
    var rows := aggregate(RenderPipeline(IdsByCountryCodeStages(code)));
    seq(|rows|, i requires 0 <= i < |rows| => ToS(rows[i].id))
  }
}
