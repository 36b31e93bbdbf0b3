/** The listing search: the query object built from a filter object, and which
    stored listings a query selects. The proximity test of the store's `$near`
    operator is a parameter. */
module WasteService {
  import opened Js
  import opened WasteModel

  /** The filter keys copied into the query as exact-match clauses. */
  const ExactKeys: set<string> := {"cropType", "wasteType", "status"}

  /** Every key a search query can hold. */
  const QueryKeys: set<string> := {"cropType", "wasteType", "status", "location"}

  /** The proximity radius, in metres, used when the filter gives none. */
  const DefaultMaxDistance: real := 10000.0

  /** `filters.key`: `undefined` for a key the filter object does not have. */
  function Field(filters: map<string, Value>, key: string): Value
  {
    if key in filters then filters[key] else Undefined
  }

  /** The `$geometry` and `$maxDistance` parts of a proximity clause. */
  function NearGeometry(clause: Value): Value
  {
    Get(Get(clause, "$near"), "$geometry")
  }

  function NearMaxDistance(clause: Value): Value
  {
    Get(Get(clause, "$near"), "$maxDistance")
  }

  /** An exact-match key is in the query exactly when the filter's value for
      it is truthy, and then carries that value. */
  predicate ExactClause(filters: map<string, Value>, q: map<string, Value>, key: string)
  {
    (key in q <==> Truthy(Field(filters, key))) && (key in q ==> q[key] == Field(filters, key))
  }

  /** What the search query for a filter object is: no keys besides the four
      query keys; each exact key present exactly for a truthy filter value;
      a proximity clause exactly for a truthy location, holding only a `$near`
      with only a point geometry [longitude, latitude] and a maximum distance
      that is the filter's radius when it is truthy and 10000 otherwise. */
  predicate IsSearchQuery(filters: map<string, Value>, q: map<string, Value>)
  {
    var location := Field(filters, "location");
    && q.Keys <= QueryKeys
    && ExactClause(filters, q, "cropType")
    && ExactClause(filters, q, "wasteType")
    && ExactClause(filters, q, "status")
    && ("location" in q <==> Truthy(location))
    && ("location" in q ==>
          && q["location"].Obj? && q["location"].props.Keys == {"$near"}
          && Get(q["location"], "$near").Obj?
          && Get(q["location"], "$near").props.Keys == {"$geometry", "$maxDistance"}
          && NearGeometry(q["location"]).Obj?
          && NearGeometry(q["location"]).props.Keys == {"type", "coordinates"}
          && Get(NearGeometry(q["location"]), "type") == Str("Point")
          && Get(NearGeometry(q["location"]), "coordinates")
             == Arr([Get(location, "longitude"), Get(location, "latitude")])
          && NearMaxDistance(q["location"]) == Or(Field(filters, "radius"), Num(DefaultMaxDistance)))
  }

  /** `searchWaste`'s query construction: start from an empty object and
      assign each clause whose filter value is truthy. */
  method SearchWaste(filters: map<string, Value>) returns (query: map<string, Value>)
    ensures IsSearchQuery(filters, query)
  {
    query := map[];
    if Truthy(Field(filters, "cropType")) {
      query := query["cropType" := Field(filters, "cropType")];
    }
    if Truthy(Field(filters, "wasteType")) {
      query := query["wasteType" := Field(filters, "wasteType")];
    }
    if Truthy(Field(filters, "status")) {
      query := query["status" := Field(filters, "status")];
    }
    if Truthy(Field(filters, "location")) {
      var location := Field(filters, "location");
      var geometry := Obj(map[
        "type" := Str("Point"),
        "coordinates" := Arr([Get(location, "longitude"), Get(location, "latitude")])]);
      query := query["location" := Obj(map["$near" := Obj(map[
        "$geometry" := geometry,
        "$maxDistance" := Or(Field(filters, "radius"), Num(DefaultMaxDistance))])])];
    }
  }

  /** The stored value an exact-match key compares against. */
  function ListingField(l: Listing, key: string): Value
  {
    match key
    case "cropType" => Str(l.cropType)
    case "wasteType" => Str(WasteTypeName(l.wasteType))
    case "status" => Str(StatusName(l.status))
    case _ => Undefined
  }

  /** A listing matches a query when it satisfies every clause: the proximity
      clause by the store's `near` test, every other key by equality. */
  predicate Matches(q: map<string, Value>, l: Listing, near: (Listing, Value) -> bool): (r: bool)
    ensures q == map[] ==> r
    ensures r ==> forall k :: k in q && k in ExactKeys ==> ListingField(l, k) == q[k]
    ensures r && "location" in q ==> near(l, q["location"])
  {
    forall k :: k in q ==> if k == "location" then near(l, q[k]) else ListingField(l, k) == q[k]
  }

  /** An empty filter object gives the empty query, which every listing matches. */
  lemma EmptyFiltersMatchEverything(q: map<string, Value>, l: Listing, near: (Listing, Value) -> bool)
    requires IsSearchQuery(map[], q)
    ensures q == map[]
    ensures Matches(q, l, near)
  {
    assert forall k :: k in q ==> k in QueryKeys;
    assert q.Keys == {};
  }

  /** Matching is the conjunction of one test per truthy filter value, so
      adding a filter only ever narrows the result. */
  lemma MatchesIsConjunctive(filters: map<string, Value>, q: map<string, Value>, l: Listing, near: (Listing, Value) -> bool)
    requires IsSearchQuery(filters, q)
    ensures Matches(q, l, near) <==>
      && (Truthy(Field(filters, "cropType")) ==> Str(l.cropType) == Field(filters, "cropType"))
      && (Truthy(Field(filters, "wasteType")) ==> Str(WasteTypeName(l.wasteType)) == Field(filters, "wasteType"))
      && (Truthy(Field(filters, "status")) ==> Str(StatusName(l.status)) == Field(filters, "status"))
      && (Truthy(Field(filters, "location")) ==> near(l, q["location"]))
  {
    assert forall k :: k in q ==> k == "cropType" || k == "wasteType" || k == "status" || k == "location";
    assert ListingField(l, "cropType") == Str(l.cropType);
    assert ListingField(l, "wasteType") == Str(WasteTypeName(l.wasteType));
    assert ListingField(l, "status") == Str(StatusName(l.status));
  }

  /** Only cropType, wasteType, status, location and radius affect the query:
      filter objects that agree on those five have the same search queries. */
  lemma OtherFiltersIgnored(f1: map<string, Value>, f2: map<string, Value>, q: map<string, Value>)
    requires forall k :: k in {"cropType", "wasteType", "status", "location", "radius"} ==> Field(f1, k) == Field(f2, k)
    ensures IsSearchQuery(f1, q) <==> IsSearchQuery(f2, q)
  {
    assert Field(f1, "cropType") == Field(f2, "cropType");
    assert Field(f1, "wasteType") == Field(f2, "wasteType");
    assert Field(f1, "status") == Field(f2, "status");
    assert Field(f1, "location") == Field(f2, "location");
    assert Field(f1, "radius") == Field(f2, "radius");
  }

  /** A missing, zero or empty radius gives the default 10000. */
  lemma MaxDistanceDefault(filters: map<string, Value>, q: map<string, Value>)
    requires IsSearchQuery(filters, q) && Truthy(Field(filters, "location"))
    requires Field(filters, "radius") in {Undefined, Null, Num(0.0), Str("")}
    ensures NearMaxDistance(q["location"]) == Num(10000.0)
  {
  }

  /** Each exact-match key depends on its own filter value alone: two filter
      objects that agree on one key give queries that agree on it, whatever
      else they set. */
  lemma ExactKeysIndependent(f1: map<string, Value>, f2: map<string, Value>,
                             q1: map<string, Value>, q2: map<string, Value>, key: string)
    requires IsSearchQuery(f1, q1) && IsSearchQuery(f2, q2)
    requires key in ExactKeys && Field(f1, key) == Field(f2, key)
    ensures key in q1 <==> key in q2
    ensures key in q1 ==> q1[key] == q2[key]
  {
  }

  /** A search by an unknown waste-type tag matches no listing. */
  lemma UnknownWasteTypeMatchesNothing(filters: map<string, Value>, q: map<string, Value>, l: Listing,
                                       near: (Listing, Value) -> bool)
    requires IsSearchQuery(filters, q)
    requires Field(filters, "wasteType").Str? && Field(filters, "wasteType").s !in WasteTypeNames
    requires Truthy(Field(filters, "wasteType"))
    ensures !Matches(q, l, near)
  {
    WasteTypeNamesParse(l.wasteType);
    assert ListingField(l, "wasteType") != q["wasteType"];
  }
}
