/** The reference-data views: facilities, programs, orderables and processing
    periods read from a fixture, filtered and looked up by id, and the zone and
    facility-type lists derived from the facilities. Nothing here changes state. */
module Reference {
  import opened Common

  /** `{content, totalElements}`. */
  datatype Listing = Listing(content: seq<Json>, totalElements: nat)

  datatype ObjectListing = ObjectListing(content: seq<Object>, totalElements: nat)

  /** `r['active'] == (q.lower() == 'true')`. */
  predicate ActiveIs(r: Object, q: Option<string>) {
    q.Some? && Get(r, "active") == Some(JBool(Lower(q.value) == "true"))
  }

  /** `f['geographicZone']['id'] == zone`. */
  predicate InZone(f: Object, zone: Option<string>) {
    "geographicZone" in f && f["geographicZone"].JObj? && FieldIs(f["geographicZone"].fields, "id", zone)
  }

  /** The facility filter: `active` switched on by any supplied value, `zoneId` by a
      non-empty one. */
  predicate FacilityMatches(active: Option<string>, zone: Option<string>, f: Object) {
    (active.Some? ==> ActiveIs(f, active)) && (Given(zone) ==> InZone(f, zone))
  }

  function FacilityMatchesOf(active: Option<string>, zone: Option<string>): Object -> bool {
    f => FacilityMatches(active, zone, f)
  }

  /** GET /api/facilities: the facilities passing both filters, in fixture order. */
  function ListFacilities(facilities: seq<Object>, active: Option<string>, zone: Option<string>): (r: ObjectListing)
    ensures r.content == Filter(facilities, FacilityMatchesOf(active, zone))
    ensures r.totalElements == |r.content|
  {
    var byActive := (f: Object) => ActiveIs(f, active);
    var byZone := (f: Object) => InZone(f, zone);
    var filtered := Refine(Refine(facilities, active.Some?, byActive), Given(zone), byZone);
    var c1 := (f: Object) => active.Some? ==> byActive(f);
    RefineFirst(facilities, active.Some?, byActive, c1);
    RefineStep(facilities, c1, Given(zone), byZone, FacilityMatchesOf(active, zone));
    ObjectListing(filtered, |filtered|)
  }

  function ProgramMatchesOf(active: Option<string>): Object -> bool {
    p => active.Some? ==> ActiveIs(p, active)
  }

  /** GET /api/programs: every program when `active` is absent, else those whose
      `active` flag equals "is a spelling of true". */
  function ListPrograms(programs: seq<Object>, active: Option<string>): (r: ObjectListing)
    ensures r.content == Filter(programs, ProgramMatchesOf(active))
    ensures active.None? ==> r.content == programs
    ensures r.totalElements == |r.content|
  {
    var filtered := Refine(programs, active.Some?, (p: Object) => ActiveIs(p, active));
    RefineFirst(programs, active.Some?, (p: Object) => ActiveIs(p, active), ProgramMatchesOf(active));
    ObjectListing(filtered, |filtered|)
  }

  function CodeMatchesOf(code: Option<string>): Object -> bool {
    o => Given(code) ==> ContainsFolded(TextField(o, "productCode"), code.value)
  }

  /** `o['productCode']` as text. */
  function TextField(o: Object, k: string): string {
    if k in o && o[k].JStr? then o[k].s else ""
  }

  /** GET /api/orderables: the products whose code contains `code`, ignoring case. */
  function ListOrderables(orderables: seq<Object>, code: Option<string>): (r: ObjectListing)
    ensures r.content == Filter(orderables, CodeMatchesOf(code))
    ensures !Given(code) ==> r.content == orderables
    ensures r.totalElements == |r.content|
  {
    var filtered := Refine(orderables, Given(code), (o: Object) => code.Some? && ContainsFolded(TextField(o, "productCode"), code.value));
    RefineFirst(orderables, Given(code), (o: Object) => code.Some? && ContainsFolded(TextField(o, "productCode"), code.value), CodeMatchesOf(code));
    ObjectListing(filtered, |filtered|)
  }

  /** A product whose code contains the searched text at some position is listed. */
  lemma CodeOccurrenceIsListed(orderables: seq<Object>, code: string, j: nat, at: nat)
    requires code != "" && j < |orderables|
    requires var c := Lower(TextField(orderables[j], "productCode"));
      at + |code| <= |c| && c[at..at + |code|] == Lower(code)
    ensures orderables[j] in ListOrderables(orderables, Some(code)).content
  {
    ContainsAt(Lower(TextField(orderables[j], "productCode")), Lower(code), at);
  }

  // ---------------------------------------------------------------------
  // Lookups
  // ---------------------------------------------------------------------

  const FacilityNotFound := HttpError(404, "Facility not found")
  const ProgramNotFound := HttpError(404, "Program not found")
  const OrderableNotFound := HttpError(404, "Orderable not found")
  const PeriodNotFound := HttpError(404, "Processing period not found")

  /** `next((x for x in records if x['id'] == id), None)`, or the given 404. */
  function GetById(records: seq<Object>, id: string, notFound: HttpError): (r: Result<Object, HttpError>)
    ensures r.Ok? <==> exists j :: 0 <= j < |records| && Get(records[j], "id") == Some(JStr(id))
    ensures r.Ok? ==> exists j :: 0 <= j < |records| && records[j] == r.value
                        && Get(r.value, "id") == Some(JStr(id))
                        && forall k :: 0 <= k < j ==> Get(records[k], "id") != Some(JStr(id))
    ensures r.Err? ==> r.error == notFound
  {
    match FindFirst(records, (x: Object) => Get(x, "id") == Some(JStr(id)))
    case None => Err(notFound)
    case Some(i) => Ok(records[i])
  }

  /** GET /api/facilities/<id>. */
  function GetFacility(facilities: seq<Object>, id: string): (r: Result<Object, HttpError>)
    ensures r.Err? <==> forall j :: 0 <= j < |facilities| ==> Get(facilities[j], "id") != Some(JStr(id))
    ensures r.Ok? ==> r.value in facilities && Get(r.value, "id") == Some(JStr(id))
    ensures r.Err? ==> r.error == HttpError(404, "Facility not found")
  {
    GetById(facilities, id, FacilityNotFound)
  }

  /** GET /api/programs/<id>. */
  function GetProgram(programs: seq<Object>, id: string): (r: Result<Object, HttpError>)
    ensures r.Err? <==> forall j :: 0 <= j < |programs| ==> Get(programs[j], "id") != Some(JStr(id))
    ensures r.Ok? ==> r.value in programs && Get(r.value, "id") == Some(JStr(id))
    ensures r.Err? ==> r.error == HttpError(404, "Program not found")
  {
    GetById(programs, id, ProgramNotFound)
  }

  /** GET /api/orderables/<id>. */
  function GetOrderable(orderables: seq<Object>, id: string): (r: Result<Object, HttpError>)
    ensures r.Err? <==> forall j :: 0 <= j < |orderables| ==> Get(orderables[j], "id") != Some(JStr(id))
    ensures r.Ok? ==> r.value in orderables && Get(r.value, "id") == Some(JStr(id))
    ensures r.Err? ==> r.error == HttpError(404, "Orderable not found")
  {
    GetById(orderables, id, OrderableNotFound)
  }

  /** GET /api/processingPeriods/<id>. */
  function GetProcessingPeriod(periods: seq<Object>, id: string): (r: Result<Object, HttpError>)
    ensures r.Err? <==> forall j :: 0 <= j < |periods| ==> Get(periods[j], "id") != Some(JStr(id))
    ensures r.Ok? ==> r.value in periods && Get(r.value, "id") == Some(JStr(id))
    ensures r.Err? ==> r.error == HttpError(404, "Processing period not found")
  {
    GetById(periods, id, PeriodNotFound)
  }

  // ---------------------------------------------------------------------
  // Zones and facility types: one entry per distinct id
  // ---------------------------------------------------------------------

  /** An item the loop keeps: an object with a truthy `id`. */
  predicate Keyed(j: Json) {
    j.JObj? && "id" in j.fields && Truthy(j.fields["id"])
  }

  function IdOf(j: Json): Json
    requires Keyed(j)
  {
    j.fields["id"]
  }

  /** The distinct ids of the first n keyed items, in order of first occurrence. */
  function DistinctIds(items: seq<Json>, n: nat): seq<Json>
    requires n <= |items|
  {
    if n == 0 then []
    else
      var earlier := DistinctIds(items, n - 1);
      if Keyed(items[n - 1]) && IdOf(items[n - 1]) !in earlier then earlier + [IdOf(items[n - 1])] else earlier
  }

  /** The last of the first n keyed items with this id, if any. */
  function LastWith(items: seq<Json>, n: nat, id: Json): Option<Json>
    requires n <= |items|
  {
    if n == 0 then None
    else if Keyed(items[n - 1]) && IdOf(items[n - 1]) == id then Some(items[n - 1])
    else LastWith(items, n - 1, id)
  }

  /** An id is listed exactly when some keyed item carries it. */
  lemma {:induction false} DistinctIdsComplete(items: seq<Json>, n: nat, id: Json)
    requires n <= |items|
    ensures id in DistinctIds(items, n) <==> LastWith(items, n, id).Some?
  {
    if n > 0 {
      DistinctIdsComplete(items, n - 1, id);
    }
  }

  /** No id is listed twice. */
  lemma {:induction false} DistinctIdsUnique(items: seq<Json>, n: nat)
    requires n <= |items|
    ensures forall i, j :: 0 <= i < j < |DistinctIds(items, n)| ==> DistinctIds(items, n)[i] != DistinctIds(items, n)[j]
  {
    if n > 0 {
      DistinctIdsUnique(items, n - 1);
    }
  }

  /** The value kept for an id is a keyed item carrying that id. */
  lemma {:induction false} LastWithCarriesId(items: seq<Json>, n: nat, id: Json)
    requires n <= |items| && LastWith(items, n, id).Some?
    ensures Keyed(LastWith(items, n, id).value) && IdOf(LastWith(items, n, id).value) == id
    ensures LastWith(items, n, id).value in items[..n]
  {
    if !(Keyed(items[n - 1]) && IdOf(items[n - 1]) == id) {
      LastWithCarriesId(items, n - 1, id);
      assert items[..n - 1] <= items[..n];
    }
  }

  /** Build `{id: item}` in order (a Python dict keeps first-insertion order and the
      last value) and return its values: one entry per distinct truthy id, in order
      of first occurrence, each the last item with that id. */
  method Dedup(items: seq<Json>) returns (r: seq<Json>)
    ensures |r| == |DistinctIds(items, |items|)|
    ensures forall i :: 0 <= i < |r| ==>
      LastWith(items, |items|, DistinctIds(items, |items|)[i]) == Some(r[i])
  {
    var keys: seq<Json> := [];
    var table: map<Json, Json> := map[];
    for n := 0 to |items|
      invariant keys == DistinctIds(items, n)
      invariant forall k :: k in table <==> k in keys
      invariant forall k :: k in table ==> LastWith(items, n, k) == Some(table[k])
    {
      forall k ensures k in keys <==> LastWith(items, n, k).Some? {
        DistinctIdsComplete(items, n, k);
      }
      var item := items[n];
      if Keyed(item) {
        var id := item.fields["id"];
        if id !in table {
          keys := keys + [id];
        }
        table := table[id := item];
      }
    }
    r := seq(|keys|, i requires 0 <= i < |keys| => table[keys[i]]);
  }

  /** `facility.get(k, {})` for every facility. */
  function Sections(facilities: seq<Object>, k: string): (r: seq<Json>)
    ensures |r| == |facilities|
    ensures forall i :: 0 <= i < |r| ==> r[i] == GetOr(facilities[i], k, JObj(map[]))
  {
    seq(|facilities|, i requires 0 <= i < |facilities| => GetOr(facilities[i], k, JObj(map[])))
  }

  /** GET /api/geographicZones: the facilities' zones, one per distinct id. */
  method ListGeographicZones(facilities: seq<Object>) returns (r: Listing)
    ensures var zones := Sections(facilities, "geographicZone");
      && |r.content| == |DistinctIds(zones, |zones|)| == r.totalElements
      && forall i :: 0 <= i < |r.content| ==>
           LastWith(zones, |zones|, DistinctIds(zones, |zones|)[i]) == Some(r.content[i])
  {
    var zones := Dedup(Sections(facilities, "geographicZone"));
    r := Listing(zones, |zones|);
  }

  /** GET /api/facilityTypes: the facilities' types, one per distinct id. */
  method ListFacilityTypes(facilities: seq<Object>) returns (r: Listing)
    ensures var types := Sections(facilities, "type");
      && |r.content| == |DistinctIds(types, |types|)| == r.totalElements
      && forall i :: 0 <= i < |r.content| ==>
           LastWith(types, |types|, DistinctIds(types, |types|)[i]) == Some(r.content[i])
  {
    var types := Dedup(Sections(facilities, "type"));
    r := Listing(types, |types|);
  }
}
