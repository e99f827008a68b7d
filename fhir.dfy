/** The FHIR gateway: five in-memory resource lists (patients, locations,
    organizations, practitioners, practitioner roles), their conjunctive searches
    answered as searchset Bundles, lookups by id answered with OperationOutcome
    errors, and create/update for patients and locations. Resources are JSON
    objects; only the fields the handlers read are interpreted. */
module Fhir {
  import opened Common

  type Resource = Object

  // ---------------------------------------------------------------------
  // OperationOutcome and Bundle (HL7 FHIR R4)
  // ---------------------------------------------------------------------

  datatype Issue = Issue(severity: string, code: string, diagnostics: string)

  /** `{resourceType: OperationOutcome, issue: [...]}`. */
  datatype OperationOutcome = OperationOutcome(issue: seq<Issue>)

  /** An OperationOutcome with exactly one issue carrying the three values. */
  function CreateOperationOutcome(severity: string, code: string, diagnostics: string): (r: OperationOutcome)
    ensures |r.issue| == 1
    ensures r.issue[0].severity == severity && r.issue[0].code == code && r.issue[0].diagnostics == diagnostics
  {
    OperationOutcome([Issue(severity, code, diagnostics)])
  }

  /** An error response: the HTTP status and the OperationOutcome body. */
  datatype FhirError = FhirError(status: int, outcome: OperationOutcome)

  datatype BundleEntry = BundleEntry(fullUrl: string, resource: Resource, searchMode: string)

  /** `{resourceType: Bundle, id, meta.lastUpdated, type, total, entry}`. */
  datatype Bundle = Bundle(id: string, lastUpdated: string, bundleType: string, total: nat, entry: seq<BundleEntry>)

  /** Every resource carries an `id` key; the stores keep this. */
  predicate Identified(resources: seq<Resource>) {
    forall r :: r in resources ==> "id" in r
  }

  const UrnPrefix := "urn:uuid:"

  /** `create_bundle`: a searchset Bundle with one entry per resource, in order.
      `bundleId` and `now` stand for the fresh uuid and the clock reading. */
  function CreateBundle(resources: seq<Resource>, bundleId: string, now: string): (r: Bundle)
    requires Identified(resources)
    ensures r.bundleType == "searchset" && r.id == bundleId && r.lastUpdated == now + "Z"
    ensures r.total == |resources| == |r.entry|
    ensures forall i :: 0 <= i < |resources| ==>
      && r.entry[i].resource == resources[i]
      && r.entry[i].fullUrl == UrnPrefix + Render(resources[i]["id"])
      && r.entry[i].searchMode == "match"
  {
    Bundle(bundleId, now + "Z", "searchset", |resources|,
      seq(|resources|, i requires 0 <= i < |resources| =>
        BundleEntry(UrnPrefix + Render(resources[i]["id"]), resources[i], "match")))
  }

  /** The resources a bundle carries, in entry order. */
  function EntryResources(b: Bundle): seq<Resource> {
    seq(|b.entry|, i requires 0 <= i < |b.entry| => b.entry[i].resource)
  }

  /** A bundle gives back exactly the resources it was built from, and each entry's
      URL ends with the resource's textual id. */
  lemma BundleRoundTrip(resources: seq<Resource>, bundleId: string, now: string)
    requires Identified(resources)
    ensures EntryResources(CreateBundle(resources, bundleId, now)) == resources
    ensures forall i :: 0 <= i < |resources| && resources[i]["id"].JStr? ==>
      CreateBundle(resources, bundleId, now).entry[i].fullUrl[|UrnPrefix|..] == resources[i]["id"].s
  {
    var b := CreateBundle(resources, bundleId, now);
    assert |EntryResources(b)| == |resources|;
    forall i | 0 <= i < |resources| && resources[i]["id"].JStr?
      ensures b.entry[i].fullUrl[|UrnPrefix|..] == resources[i]["id"].s
    {
      assert b.entry[i].fullUrl == UrnPrefix + resources[i]["id"].s;
    }
  }

  // ---------------------------------------------------------------------
  // Field access on nested JSON
  // ---------------------------------------------------------------------

  /** `r.get(k, [])` read as a list; any other value reads as empty. */
  function ListAt(r: Object, k: string): seq<Json> {
    if k in r && r[k].JArr? then r[k].items else []
  }

  /** `r.get(k, '')` read as text; any other value reads as empty. */
  function TextAt(r: Object, k: string): string {
    if k in r && r[k].JStr? then r[k].s else ""
  }

  /** `j.get(k) == q` for a list element `j`: only an object can match. */
  predicate ObjFieldIs(j: Json, k: string, q: Option<string>) {
    j.JObj? && FieldIs(j.fields, k, q)
  }

  /** `any(i.get('value') == q for i in r.get('identifier', []))`. */
  predicate HasIdentifier(r: Resource, q: Option<string>) {
    exists i :: 0 <= i < |ListAt(r, "identifier")| && ObjFieldIs(ListAt(r, "identifier")[i], "value", q)
  }

  /** `r.get(k, {}).get('reference') == q`. */
  predicate RefIs(r: Resource, k: string, q: Option<string>) {
    k in r && ObjFieldIs(r[k], "reference", q)
  }

  /** `any(l.get('reference') == q for l in r.get(k, []))`. */
  predicate AnyRefIs(r: Resource, k: string, q: Option<string>) {
    exists i :: 0 <= i < |ListAt(r, k)| && ObjFieldIs(ListAt(r, k)[i], "reference", q)
  }

  /** One HumanName matches when the text occurs, ignoring case, in its family
      name or in one of its given names. */
  predicate HumanNameMatches(n: Json, needle: string) {
    && n.JObj?
    && (|| ContainsFolded(TextAt(n.fields, "family"), needle)
        || exists g :: 0 <= g < |ListAt(n.fields, "given")|
             && ListAt(n.fields, "given")[g].JStr? && ContainsFolded(ListAt(n.fields, "given")[g].s, needle))
  }

  /** Some name of the resource matches. */
  predicate NameMatches(r: Resource, q: Option<string>) {
    q.Some? && exists k :: 0 <= k < |ListAt(r, "name")| && HumanNameMatches(ListAt(r, "name")[k], q.value)
  }

  /** `q.lower() in r.get('name', '').lower()`. */
  predicate TextNameMatches(r: Resource, q: Option<string>) {
    q.Some? && ContainsFolded(TextAt(r, "name"), q.value)
  }

  /** `r.get('active') == (q.lower() == 'true')`: any spelling of "true" selects the
      active resources, every other value the inactive ones. */
  predicate ActiveIs(r: Resource, q: Option<string>) {
    q.Some? && Get(r, "active") == Some(JBool(Lower(q.value) == "true"))
  }

  // ---------------------------------------------------------------------
  // Searches
  // ---------------------------------------------------------------------

  datatype PatientQuery = PatientQuery(id: Option<string>, identifier: Option<string>, name: Option<string>,
                                       gender: Option<string>, birthdate: Option<string>)

  predicate PatientMatches(q: PatientQuery, r: Resource) {
    && (Given(q.id) ==> FieldIs(r, "id", q.id))
    && (Given(q.identifier) ==> HasIdentifier(r, q.identifier))
    && (Given(q.name) ==> NameMatches(r, q.name))
    && (Given(q.gender) ==> FieldIs(r, "gender", q.gender))
    && (Given(q.birthdate) ==> FieldIs(r, "birthDate", q.birthdate))
  }

  function PatientMatchesOf(q: PatientQuery): Resource -> bool {
    r => PatientMatches(q, r)
  }

  function PatientStages(q: PatientQuery): seq<Stage<Resource>> {
    [ Stage(Given(q.id), (r: Resource) => FieldIs(r, "id", q.id)),
      Stage(Given(q.identifier), (r: Resource) => HasIdentifier(r, q.identifier)),
      Stage(Given(q.name), (r: Resource) => NameMatches(r, q.name)),
      Stage(Given(q.gender), (r: Resource) => FieldIs(r, "gender", q.gender)),
      Stage(Given(q.birthdate), (r: Resource) => FieldIs(r, "birthDate", q.birthdate)) ]
  }

  /** GET /fhir/Patient: a bundle of exactly the patients matching every given
      parameter, in store order. */
  function SearchPatients(patients: seq<Resource>, q: PatientQuery, bundleId: string, now: string): (b: Bundle)
    requires Identified(patients)
    ensures b == CreateBundle(Filter(patients, PatientMatchesOf(q)), bundleId, now)
  {
    var stages := PatientStages(q);
    forall x
      ensures PatientMatchesOf(q)(x) == PassesAll(stages, x)
    {
      assert stages == [stages[0], stages[1], stages[2], stages[3], stages[4]];
      PassesAllFive(stages[0], stages[1], stages[2], stages[3], stages[4], x);
    }
    ChainIsConjunction(patients, stages, PatientMatchesOf(q));
    CreateBundle(Chain(patients, stages), bundleId, now)
  }

  /** The name search ignores the case of the searched text. */
  lemma PatientNameSearchIgnoresCase(patients: seq<Resource>, q: PatientQuery, name: string)
    requires q.name.Some? && name != "" && Lower(name) == Lower(q.name.value)
    ensures Filter(patients, PatientMatchesOf(q.(name := Some(name)))) == Filter(patients, PatientMatchesOf(q))
  {
    FilterExt(patients, PatientMatchesOf(q.(name := Some(name))), PatientMatchesOf(q));
  }

  datatype LocationQuery = LocationQuery(id: Option<string>, identifier: Option<string>, name: Option<string>,
                                         status: Option<string>, partof: Option<string>)

  predicate LocationMatches(q: LocationQuery, r: Resource) {
    && (Given(q.id) ==> FieldIs(r, "id", q.id))
    && (Given(q.identifier) ==> HasIdentifier(r, q.identifier))
    && (Given(q.name) ==> TextNameMatches(r, q.name))
    && (Given(q.status) ==> FieldIs(r, "status", q.status))
    && (Given(q.partof) ==> RefIs(r, "partOf", q.partof))
  }

  function LocationMatchesOf(q: LocationQuery): Resource -> bool {
    r => LocationMatches(q, r)
  }

  function LocationStages(q: LocationQuery): seq<Stage<Resource>> {
    [ Stage(Given(q.id), (r: Resource) => FieldIs(r, "id", q.id)),
      Stage(Given(q.identifier), (r: Resource) => HasIdentifier(r, q.identifier)),
      Stage(Given(q.name), (r: Resource) => TextNameMatches(r, q.name)),
      Stage(Given(q.status), (r: Resource) => FieldIs(r, "status", q.status)),
      Stage(Given(q.partof), (r: Resource) => RefIs(r, "partOf", q.partof)) ]
  }

  /** GET /fhir/Location. */
  function SearchLocations(locations: seq<Resource>, q: LocationQuery, bundleId: string, now: string): (b: Bundle)
    requires Identified(locations)
    ensures b == CreateBundle(Filter(locations, LocationMatchesOf(q)), bundleId, now)
  {
    var stages := LocationStages(q);
    forall x
      ensures LocationMatchesOf(q)(x) == PassesAll(stages, x)
    {
      assert stages == [stages[0], stages[1], stages[2], stages[3], stages[4]];
      PassesAllFive(stages[0], stages[1], stages[2], stages[3], stages[4], x);
    }
    ChainIsConjunction(locations, stages, LocationMatchesOf(q));
    CreateBundle(Chain(locations, stages), bundleId, now)
  }

  datatype OrganizationQuery = OrganizationQuery(id: Option<string>, identifier: Option<string>, name: Option<string>,
                                                 active: Option<string>, partof: Option<string>)

  /** The `active` stage is switched on by any supplied value, even an empty one. */
  predicate OrganizationMatches(q: OrganizationQuery, r: Resource) {
    && (Given(q.id) ==> FieldIs(r, "id", q.id))
    && (Given(q.identifier) ==> HasIdentifier(r, q.identifier))
    && (Given(q.name) ==> TextNameMatches(r, q.name))
    && (q.active.Some? ==> ActiveIs(r, q.active))
    && (Given(q.partof) ==> RefIs(r, "partOf", q.partof))
  }

  function OrganizationMatchesOf(q: OrganizationQuery): Resource -> bool {
    r => OrganizationMatches(q, r)
  }

  function OrganizationStages(q: OrganizationQuery): seq<Stage<Resource>> {
    [ Stage(Given(q.id), (r: Resource) => FieldIs(r, "id", q.id)),
      Stage(Given(q.identifier), (r: Resource) => HasIdentifier(r, q.identifier)),
      Stage(Given(q.name), (r: Resource) => TextNameMatches(r, q.name)),
      Stage(q.active.Some?, (r: Resource) => ActiveIs(r, q.active)),
      Stage(Given(q.partof), (r: Resource) => RefIs(r, "partOf", q.partof)) ]
  }

  /** GET /fhir/Organization. */
  function SearchOrganizations(organizations: seq<Resource>, q: OrganizationQuery, bundleId: string, now: string): (b: Bundle)
    requires Identified(organizations)
    ensures b == CreateBundle(Filter(organizations, OrganizationMatchesOf(q)), bundleId, now)
  {
    var stages := OrganizationStages(q);
    forall x
      ensures OrganizationMatchesOf(q)(x) == PassesAll(stages, x)
    {
      assert stages == [stages[0], stages[1], stages[2], stages[3], stages[4]];
      PassesAllFive(stages[0], stages[1], stages[2], stages[3], stages[4], x);
    }
    ChainIsConjunction(organizations, stages, OrganizationMatchesOf(q));
    CreateBundle(Chain(organizations, stages), bundleId, now)
  }

  /** A supplied `active` other than a spelling of "true" keeps exactly the
      resources whose `active` is false. */
  lemma ActiveOtherThanTrueSelectsInactive(organizations: seq<Resource>, active: string)
    requires Lower(active) != "true"
    ensures Filter(organizations, OrganizationMatchesOf(OrganizationQuery(None, None, None, Some(active), None)))
         == Filter(organizations, (r: Resource) => Get(r, "active") == Some(JBool(false)))
  {
    FilterExt(organizations, OrganizationMatchesOf(OrganizationQuery(None, None, None, Some(active), None)),
      (r: Resource) => Get(r, "active") == Some(JBool(false)));
  }

  datatype PractitionerQuery = PractitionerQuery(id: Option<string>, identifier: Option<string>, name: Option<string>,
                                                 active: Option<string>)

  predicate PractitionerMatches(q: PractitionerQuery, r: Resource) {
    && (Given(q.id) ==> FieldIs(r, "id", q.id))
    && (Given(q.identifier) ==> HasIdentifier(r, q.identifier))
    && (Given(q.name) ==> NameMatches(r, q.name))
    && (q.active.Some? ==> ActiveIs(r, q.active))
  }

  function PractitionerMatchesOf(q: PractitionerQuery): Resource -> bool {
    r => PractitionerMatches(q, r)
  }

  function PractitionerStages(q: PractitionerQuery): seq<Stage<Resource>> {
    [ Stage(Given(q.id), (r: Resource) => FieldIs(r, "id", q.id)),
      Stage(Given(q.identifier), (r: Resource) => HasIdentifier(r, q.identifier)),
      Stage(Given(q.name), (r: Resource) => NameMatches(r, q.name)),
      Stage(q.active.Some?, (r: Resource) => ActiveIs(r, q.active)) ]
  }

  /** GET /fhir/Practitioner. */
  function SearchPractitioners(practitioners: seq<Resource>, q: PractitionerQuery, bundleId: string, now: string): (b: Bundle)
    requires Identified(practitioners)
    ensures b == CreateBundle(Filter(practitioners, PractitionerMatchesOf(q)), bundleId, now)
  {
    var stages := PractitionerStages(q);
    forall x
      ensures PractitionerMatchesOf(q)(x) == PassesAll(stages, x)
    {
      assert stages == [stages[0], stages[1], stages[2], stages[3]];
      PassesAllFour(stages[0], stages[1], stages[2], stages[3], x);
    }
    ChainIsConjunction(practitioners, stages, PractitionerMatchesOf(q));
    CreateBundle(Chain(practitioners, stages), bundleId, now)
  }

  datatype RoleQuery = RoleQuery(id: Option<string>, practitioner: Option<string>, organization: Option<string>,
                                 location: Option<string>, active: Option<string>)

  predicate RoleMatches(q: RoleQuery, r: Resource) {
    && (Given(q.id) ==> FieldIs(r, "id", q.id))
    && (Given(q.practitioner) ==> RefIs(r, "practitioner", q.practitioner))
    && (Given(q.organization) ==> RefIs(r, "organization", q.organization))
    && (Given(q.location) ==> AnyRefIs(r, "location", q.location))
    && (q.active.Some? ==> ActiveIs(r, q.active))
  }

  function RoleMatchesOf(q: RoleQuery): Resource -> bool {
    r => RoleMatches(q, r)
  }

  function RoleStages(q: RoleQuery): seq<Stage<Resource>> {
    [ Stage(Given(q.id), (r: Resource) => FieldIs(r, "id", q.id)),
      Stage(Given(q.practitioner), (r: Resource) => RefIs(r, "practitioner", q.practitioner)),
      Stage(Given(q.organization), (r: Resource) => RefIs(r, "organization", q.organization)),
      Stage(Given(q.location), (r: Resource) => AnyRefIs(r, "location", q.location)),
      Stage(q.active.Some?, (r: Resource) => ActiveIs(r, q.active)) ]
  }

  /** GET /fhir/PractitionerRole. */
  function SearchPractitionerRoles(roles: seq<Resource>, q: RoleQuery, bundleId: string, now: string): (b: Bundle)
    requires Identified(roles)
    ensures b == CreateBundle(Filter(roles, RoleMatchesOf(q)), bundleId, now)
  {
    var stages := RoleStages(q);
    forall x
      ensures RoleMatchesOf(q)(x) == PassesAll(stages, x)
    {
      assert stages == [stages[0], stages[1], stages[2], stages[3], stages[4]];
      PassesAllFive(stages[0], stages[1], stages[2], stages[3], stages[4], x);
    }
    ChainIsConjunction(roles, stages, RoleMatchesOf(q));
    CreateBundle(Chain(roles, stages), bundleId, now)
  }

  // ---------------------------------------------------------------------
  // Read by id
  // ---------------------------------------------------------------------

  function NotFound(kind: string, id: string): FhirError {
    FhirError(404, CreateOperationOutcome("error", "not-found", kind + "/" + id + " not found"))
  }

  function HasId(id: string): Resource -> bool {
    (r: Resource) => Get(r, "id") == Some(JStr(id))
  }

  /** GET /fhir/<kind>/<id>: the first resource with that id, or 404 with an
      OperationOutcome naming `<kind>/<id>`. */
  function GetResource(store: seq<Resource>, kind: string, id: string): (r: Result<Resource, FhirError>)
    ensures r.Ok? <==> exists j :: 0 <= j < |store| && Get(store[j], "id") == Some(JStr(id))
    ensures r.Ok? ==> exists j :: 0 <= j < |store| && store[j] == r.value
                        && Get(r.value, "id") == Some(JStr(id))
                        && forall k :: 0 <= k < j ==> Get(store[k], "id") != Some(JStr(id))
    ensures r.Err? ==> r.error == NotFound(kind, id)
  {
    match FindFirst(store, HasId(id))
    case None => Err(NotFound(kind, id))
    case Some(i) => Ok(store[i])
  }

  // ---------------------------------------------------------------------
  // Create and update
  // ---------------------------------------------------------------------

  /** `not data or data.get('resourceType') != kind` fails; an empty object has no
      resourceType, so the test is the resourceType alone. */
  predicate ValidBody(kind: string, body: Option<Object>) {
    body.Some? && Get(body.value, "resourceType") == Some(JStr(kind))
  }

  function Invalid(kind: string): FhirError {
    FhirError(400, CreateOperationOutcome("error", "invalid", "Invalid " + kind + " resource"))
  }

  /** The `meta` the handlers write: the version as text and the clock reading. */
  function Meta(version: int, now: string): Json {
    JObj(map["versionId" := JStr(IntToString(version)), "lastUpdated" := JStr(now + "Z")])
  }

  /** `int(r.get('meta', {}).get('versionId', 0))`; None where Python raises
      (a `meta` that is not an object, a version that is not an integer). */
  function VersionOf(r: Resource): Option<int> {
    match GetOr(r, "meta", JObj(map[]))
    case JObj(meta) =>
      (match GetOr(meta, "versionId", JNum(0))
       case JNum(n) => Some(n)
       case JStr(s) => ParseInt(s)
       case JBool(b) => Some(if b then 1 else 0)
       case _ => None)
    case _ => None
  }

  /** The version written by `Meta` reads back as itself. */
  lemma MetaVersionRoundTrip(r: Resource, version: int, now: string)
    ensures VersionOf(r["meta" := Meta(version, now)]) == Some(version)
  {
    IntRoundTrip(version);
  }

  /** `create_patient` / `create_location`: the stored resource for a valid body.
      `prefix` is the lower-case type with its hyphen and `fresh8` the eight uuid characters. */
  function Created(kind: string, prefix: string, body: Option<Object>, fresh8: string, now: string): (r: Result<Resource, FhirError>)
    ensures r.Ok? <==> ValidBody(kind, body)
    ensures r.Err? ==> r.error == Invalid(kind)
    ensures r.Ok? ==>
      && r.value.Keys == body.value.Keys + {"id", "meta"}
      && r.value["resourceType"] == JStr(kind)
      && r.value["id"] == (if "id" in body.value then body.value["id"] else JStr(prefix + fresh8))
      && r.value["meta"] == Meta(1, now)
      && VersionOf(r.value) == Some(1)
      && forall k :: k in body.value && k != "meta" ==> r.value[k] == body.value[k]
  {
    if !ValidBody(kind, body) then Err(Invalid(kind))
    else
      var data := if "id" in body.value then body.value else body.value["id" := JStr(prefix + fresh8)];
      MetaVersionRoundTrip(data, 1, now);
      Ok(data["meta" := Meta(1, now)])
  }

  /** A created resource is read back by its id when no earlier resource has it. */
  lemma CreateThenRead(store: seq<Resource>, kind: string, prefix: string, body: Option<Object>, fresh8: string, now: string, id: string)
    requires Created(kind, prefix, body, fresh8, now).Ok?
    requires Created(kind, prefix, body, fresh8, now).value["id"] == JStr(id)
    requires forall j :: 0 <= j < |store| ==> Get(store[j], "id") != Some(JStr(id))
    ensures GetResource(store + [Created(kind, prefix, body, fresh8, now).value], kind, id)
         == Created(kind, prefix, body, fresh8, now)
  {
    var rec := Created(kind, prefix, body, fresh8, now).value;
    assert (store + [rec])[|store|] == rec;
    assert forall j :: 0 <= j < |store| ==> (store + [rec])[j] == store[j];
  }

  /** Create does not check for duplicates: an id already present keeps being read
      as the earlier resource. */
  lemma DuplicateCreateIsShadowed(store: seq<Resource>, kind: string, rec: Resource, id: string)
    requires exists j :: 0 <= j < |store| && Get(store[j], "id") == Some(JStr(id))
    ensures GetResource(store + [rec], kind, id) == GetResource(store, kind, id)
  {
    var j :| 0 <= j < |store| && Get(store[j], "id") == Some(JStr(id));
    assert HasId(id)(store[j]);
    FindFirstAppend(store, [rec], HasId(id));
  }

  const Crash := FhirError(500, CreateOperationOutcome("fatal", "exception", "Internal Server Error"))

  datatype Upserted = Upserted(store: seq<Resource>, record: Resource)

  /** The version `update_patient` writes: one past the stored version, or 1 for a
      new id; None where reading the stored version raises. */
  function NextVersion(patients: seq<Resource>, id: string): Option<int> {
    match FindFirst(patients, HasId(id))
    case None => Some(1)
    case Some(i) =>
      (match VersionOf(patients[i])
       case None => None
       case Some(v) => Some(v + 1))
  }

  /** `update_patient`: the patient list afterwards and the stored record. */
  function Upsert(patients: seq<Resource>, id: string, body: Option<Object>, now: string): (r: Result<Upserted, FhirError>)
    ensures !ValidBody("Patient", body) ==> r == Err(Invalid("Patient"))
    ensures ValidBody("Patient", body) && NextVersion(patients, id).None? ==> r == Err(Crash)
    ensures ValidBody("Patient", body) && NextVersion(patients, id).Some? ==> r.Ok?
    ensures r.Ok? ==>
      && r.value.record.Keys == body.value.Keys + {"id", "meta"}
      && r.value.record["meta"] == Meta(NextVersion(patients, id).value, now)
      && r.value.record["id"] == JStr(id)
      && VersionOf(r.value.record) == NextVersion(patients, id)
      && (forall k :: k in body.value && k != "id" && k != "meta" ==> r.value.record[k] == body.value[k])
      && match FindFirst(patients, HasId(id))
         case Some(i) => r.value.store == patients[i := r.value.record]
         case None => r.value.store == patients + [r.value.record]
  {
    if !ValidBody("Patient", body) then Err(Invalid("Patient"))
    else match NextVersion(patients, id)
      case None => Err(Crash)
      case Some(v) =>
        var data := body.value["id" := JStr(id)]["meta" := Meta(v, now)];
        MetaVersionRoundTrip(body.value["id" := JStr(id)], v, now);
        match FindFirst(patients, HasId(id))
        case Some(i) => Ok(Upserted(patients[i := data], data))
        case None => Ok(Upserted(patients + [data], data))
  }

  /** After an update the id reads back as the record just written, at the same
      place as before or at the end. */
  lemma {:induction false} UpsertThenRead(patients: seq<Resource>, id: string, body: Option<Object>, now: string)
    requires Upsert(patients, id, body, now).Ok?
    ensures var u := Upsert(patients, id, body, now).value;
      GetResource(u.store, "Patient", id) == Ok(u.record)
  {
    var u := Upsert(patients, id, body, now).value;
    assert HasId(id)(u.record);
    match FindFirst(patients, HasId(id))
    case Some(i) =>
      assert forall k :: 0 <= k < i ==> u.store[k] == patients[k];
      assert u.store[i] == u.record;
    case None =>
      assert forall k :: 0 <= k < |patients| ==> u.store[k] == patients[k];
      assert u.store[|patients|] == u.record;
  }

  /** Updating a stored patient whose version is n writes version n + 1, and a new id gets 1. */
  lemma UpsertBumpsVersion(patients: seq<Resource>, id: string, body: Option<Object>, now: string)
    requires Upsert(patients, id, body, now).Ok?
    ensures var rec := Upsert(patients, id, body, now).value.record;
      match FindFirst(patients, HasId(id))
      case Some(i) => VersionOf(patients[i]).Some? && VersionOf(rec) == Some(VersionOf(patients[i]).value + 1)
      case None => VersionOf(rec) == Some(1)
  {
  }

  // ---------------------------------------------------------------------
  // The store
  // ---------------------------------------------------------------------

  class FhirStore {
    var patients: seq<Resource>
    var locations: seq<Resource>
    const organizations: seq<Resource>
    const practitioners: seq<Resource>
    const practitionerRoles: seq<Resource>

    predicate Valid()
      reads this
    {
      && Identified(patients) && Identified(locations) && Identified(organizations)
      && Identified(practitioners) && Identified(practitionerRoles)
    }

    constructor (ps: seq<Resource>, ls: seq<Resource>, os: seq<Resource>, prs: seq<Resource>, rs: seq<Resource>)
      requires Identified(ps) && Identified(ls) && Identified(os) && Identified(prs) && Identified(rs)
      ensures patients == ps && locations == ls && organizations == os
      ensures practitioners == prs && practitionerRoles == rs
      ensures Valid()
    {
      patients := ps;
      locations := ls;
      organizations := os;
      practitioners := prs;
      practitionerRoles := rs;
    }

    /** POST /fhir/Patient: validate, assign an id when absent, stamp version 1, append. */
    method CreatePatient(body: Option<Object>, fresh8: string, now: string) returns (r: Result<Resource, FhirError>)
      requires Valid()
      modifies this
      ensures Valid()
      ensures r == Created("Patient", "patient-", body, fresh8, now)
      ensures r.Ok? ==> patients == old(patients) + [r.value]
      ensures r.Err? ==> patients == old(patients)
      ensures locations == old(locations)
    {
      if !ValidBody("Patient", body) {
        return Err(Invalid("Patient"));
      }
      var data := body.value;
      if "id" !in data {
        data := data["id" := JStr("patient-" + fresh8)];
      }
      data := data["meta" := Meta(1, now)];
      patients := patients + [data];
      r := Ok(data);
    }

    /** POST /fhir/Location: the same rules with resourceType Location. */
    method CreateLocation(body: Option<Object>, fresh8: string, now: string) returns (r: Result<Resource, FhirError>)
      requires Valid()
      modifies this
      ensures Valid()
      ensures r == Created("Location", "location-", body, fresh8, now)
      ensures r.Ok? ==> locations == old(locations) + [r.value]
      ensures r.Err? ==> locations == old(locations)
      ensures patients == old(patients)
    {
      if !ValidBody("Location", body) {
        return Err(Invalid("Location"));
      }
      var data := body.value;
      if "id" !in data {
        data := data["id" := JStr("location-" + fresh8)];
      }
      data := data["meta" := Meta(1, now)];
      locations := locations + [data];
      r := Ok(data);
    }

    /** PUT /fhir/Patient/<id>: replace the first patient with that id (version + 1)
        or append (version 1); the body's id is overwritten with the path id. */
    method UpdatePatient(id: string, body: Option<Object>, now: string) returns (r: Result<Resource, FhirError>)
      requires Valid()
      modifies this
      ensures Valid()
      ensures var u := Upsert(old(patients), id, body, now);
        && (u.Err? ==> r == Err(u.error) && patients == old(patients))
        && (u.Ok? ==> r == Ok(u.value.record) && patients == u.value.store)
      ensures locations == old(locations)
    {
      var idx := FindFirst(patients, HasId(id));
      if !ValidBody("Patient", body) {
        return Err(Invalid("Patient"));
      }
      var data := body.value["id" := JStr(id)];
      var version := 1;
      if idx.Some? {
        var current := VersionOf(patients[idx.value]);
        if current.None? {
          return Err(Crash);
        }
        version := current.value + 1;
        data := data["meta" := Meta(version, now)];
        patients := patients[idx.value := data];
      } else {
        data := data["meta" := Meta(version, now)];
        patients := patients + [data];
      }
      r := Ok(data);
    }
  }
}
