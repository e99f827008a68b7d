/** The webhook receiver: a bounded, newest-first log of received and simulated
    events, a filtered listing of it, and the rule each endpoint uses to name
    the event it records. */
module Webhooks {
  import opened Common

  /** The log keeps at most this many events. */
  const MaxEvents: nat := 100

  const DefaultLimit: int := 50

  datatype Event = Event(id: string, source: Json, eventType: Json, timestamp: string, payload: Json)

  /** The log after recording `e`: `e` in front, then the older events, cut to the bound. */
  function Pushed(log: seq<Event>, e: Event): (r: seq<Event>)
    ensures r != [] && r[0] == e
    ensures |r| == Min(|log| + 1, MaxEvents)
    ensures r[1..] <= log
  {
    ([e] + log)[..Min(|log| + 1, MaxEvents)]
  }

  /** A log within the bound keeps every older event when it has room. */
  lemma PushedKeepsAllBelowBound(log: seq<Event>, e: Event)
    requires |log| < MaxEvents
    ensures Pushed(log, e) == [e] + log
  {
  }

  /** A full log drops exactly its oldest (last) event. */
  lemma PushedDropsOldest(log: seq<Event>, e: Event)
    requires |log| == MaxEvents
    ensures Pushed(log, e) == [e] + log[..MaxEvents - 1]
  {
    assert ([e] + log)[..MaxEvents] == [e] + log[..MaxEvents - 1];
  }

  // ---------------------------------------------------------------------
  // Listing
  // ---------------------------------------------------------------------

  /** The query parameters of GET /api/events; `limit` is the raw text. */
  datatype EventQuery = EventQuery(source: Option<string>, eventType: Option<string>, limit: Option<string>)

  /** `request.args.get('limit', 50, type=int)`: the parsed integer, or 50 when
      absent or not an integer. */
  function LimitOf(raw: Option<string>): int {
    if raw.Some? && ParseInt(raw.value).Some? then ParseInt(raw.value).value else DefaultLimit
  }

  /** Any integer written in decimal is taken as the limit. */
  lemma LimitReadsDecimal(n: int)
    ensures LimitOf(Some(IntToString(n))) == n
  {
    IntRoundTrip(n);
  }

  predicate EventMatches(q: EventQuery, e: Event) {
    && (Given(q.source) ==> IsText(e.source, q.source))
    && (Given(q.eventType) ==> IsText(e.eventType, q.eventType))
  }

  function EventMatchesOf(q: EventQuery): Event -> bool {
    e => EventMatches(q, e)
  }

  function BySource(q: EventQuery): Event -> bool {
    (e: Event) => IsText(e.source, q.source)
  }

  function ByType(q: EventQuery): Event -> bool {
    (e: Event) => IsText(e.eventType, q.eventType)
  }

  datatype EventListing = EventListing(events: seq<Event>, total: nat)

  /** GET /api/events: the first `limit` events (Python slice rules) of the log
      filtered by the non-empty source and type, and the count before truncation. */
  function ListEvents(log: seq<Event>, q: EventQuery): (r: EventListing)
    ensures var filtered := Filter(log, EventMatchesOf(q));
      && r.total == |filtered|
      && r.events == SlicePrefix(filtered, LimitOf(q.limit))
  {
    var filtered := Refine(Refine(log, Given(q.source), BySource(q)), Given(q.eventType), ByType(q));
    var c1 := (e: Event) => Given(q.source) ==> BySource(q)(e);
    RefineFirst(log, Given(q.source), BySource(q), c1);
    RefineStep(log, c1, Given(q.eventType), ByType(q), EventMatchesOf(q));
    EventListing(SlicePrefix(filtered, LimitOf(q.limit)), |filtered|)
  }

  /** A new event that the query selects is listed first, whenever the limit is positive. */
  lemma NewestListedFirst(log: seq<Event>, e: Event, q: EventQuery)
    requires EventMatches(q, e) && LimitOf(q.limit) > 0
    ensures ListEvents(Pushed(log, e), q).events != []
    ensures ListEvents(Pushed(log, e), q).events[0] == e
  {
    var p := Pushed(log, e);
    assert p[0] == e;
    assert EventMatchesOf(q)(p[0]);
  }

  // ---------------------------------------------------------------------
  // Event naming, one rule per endpoint
  // ---------------------------------------------------------------------

  /** `prefix + data.get('action', 'update')`: None when the action is not text,
      where the concatenation raises. */
  function ActionType(prefix: string, body: Object): (r: Option<string>)
    ensures "action" !in body ==> r == Some(prefix + "update")
    ensures "action" in body ==> (r.Some? <==> body["action"].JStr?)
    ensures r.Some? ==> prefix <= r.value
    ensures r.Some? && "action" in body ==> r.value[|prefix|..] == body["action"].s
  {
    match GetOr(body, "action", JStr("update"))
    case JStr(a) => Some(prefix + a)
    case _ => None
  }

  /** /webhooks/opensrp: `type` when given, else the lowercased `resourceType`,
      else "unknown". The lowercasing is evaluated first, so a `resourceType`
      that is not text raises even when `type` is given: None. */
  function OpensrpType(body: Object): (r: Option<Json>)
    ensures r.None? <==> "resourceType" in body && !body["resourceType"].JStr?
    ensures r.Some? && "type" in body ==> r.value == body["type"]
    ensures r.Some? && "type" !in body && "resourceType" in body ==> r.value == JStr(Lower(body["resourceType"].s))
    ensures "type" !in body && "resourceType" !in body ==> r == Some(JStr("unknown"))
  {
    assert Lower("unknown") == "unknown";
    match GetOr(body, "resourceType", JStr("unknown"))
    case JStr(rt) => Some(GetOr(body, "type", JStr(Lower(rt))))
    case _ => None
  }

  /** /webhooks/opensrp/patient: a body carrying a truthy `id` reports an update. */
  function PatientType(body: Object): (r: string)
    ensures r == "patient.updated" <==> "id" in body && Truthy(body["id"])
    ensures r == "patient.created" <==> !("id" in body && Truthy(body["id"]))
  {
    if "id" in body && Truthy(body["id"]) then "patient.updated" else "patient.created"
  }

  /** Every endpoint that records an event. */
  datatype Hook =
    | OpenlmisHook
    | RequisitionHook
    | StockHook
    | OpensrpHook
    | PatientHook
    | EncounterHook
    | Simulate
    | SimulateRequisition
    | SimulateStock
    | SimulatePatient
    | SimulateEncounter

  /** What an endpoint records, before the log assigns an id and a timestamp. */
  datatype Entry = Entry(source: Json, eventType: Json, payload: Json)

  const Crash := HttpError(500, "Internal Server Error")

  /** The payload of a simulated requisition status change. */
  function RequisitionPayload(body: Object, stamp: string): Json {
    JObj(map[
      "requisitionId" := GetOr(body, "requisitionId", JStr("req-001-uuid-mock")),
      "previousStatus" := GetOr(body, "previousStatus", JStr("INITIATED")),
      "newStatus" := GetOr(body, "newStatus", JStr("SUBMITTED")),
      "facilityId" := GetOr(body, "facilityId", JStr("fac-001")),
      "programId" := GetOr(body, "programId", JStr("prog-essential-meds")),
      "userId" := GetOr(body, "userId", JStr("user-001")),
      "timestamp" := JStr(stamp)])
  }

  /** The payload of a simulated stock update. */
  function StockPayload(body: Object, stamp: string): Json {
    JObj(map[
      "stockCardId" := GetOr(body, "stockCardId", JStr("stock-card-001")),
      "facilityId" := GetOr(body, "facilityId", JStr("fac-001")),
      "orderableId" := GetOr(body, "orderableId", JStr("orderable-paracetamol")),
      "quantity" := GetOr(body, "quantity", JNum(100)),
      "reason" := GetOr(body, "reason", JStr("RECEIVE")),
      "stockOnHand" := GetOr(body, "stockOnHand", JNum(170)),
      "timestamp" := JStr(stamp)])
  }

  /** The payload of a simulated patient event. */
  function PatientPayload(body: Object, stamp: string): Json {
    JObj(map[
      "resourceType" := JStr("Patient"),
      "id" := GetOr(body, "patientId", JStr("patient-new-001")),
      "name" := JArr([JObj(map[
        "family" := GetOr(body, "family", JStr("Test")),
        "given" := JArr([GetOr(body, "given", JStr("Patient"))])])]),
      "gender" := GetOr(body, "gender", JStr("male")),
      "birthDate" := GetOr(body, "birthDate", JStr("1990-01-01")),
      "meta" := JObj(map["lastUpdated" := JStr(stamp)])])
  }

  /** The payload of a simulated encounter; `hex8` stands for the eight random hex
      digits, `stamp` and `endStamp` for the two clock readings of its period. */
  function EncounterPayload(body: Object, stamp: string, endStamp: string, hex8: string): Json {
    JObj(map[
      "resourceType" := JStr("Encounter"),
      "id" := GetOr(body, "encounterId", JStr("encounter-" + hex8)),
      "status" := JStr("finished"),
      "class" := JObj(map["code" := JStr("AMB"), "display" := JStr("ambulatory")]),
      "subject" := JObj(map["reference" := JStr("Patient/" + Render(GetOr(body, "patientId", JStr("patient-001"))))]),
      "period" := JObj(map["start" := JStr(stamp), "end" := JStr(endStamp)]),
      "serviceProvider" := JObj(map["reference" := JStr("Organization/" + Render(GetOr(body, "organizationId", JStr("org-001"))))])])
  }

  /** The source, type and payload an endpoint records for a body (an absent body is
      the empty object), or the server error its type expression raises. */
  function Derive(hook: Hook, body: Object, stamp: string, endStamp: string, hex8: string): (r: Result<Entry, HttpError>)
    ensures r.Err? ==> r.error == Crash
    ensures r.Err? <==> || (hook == RequisitionHook && ActionType("requisition.", body).None?)
                        || (hook == StockHook && ActionType("stock.", body).None?)
                        || (hook == OpensrpHook && OpensrpType(body).None?)
    ensures r.Ok? && hook in {OpenlmisHook, RequisitionHook, StockHook} ==> r.value.source == JStr("openlmis")
    ensures r.Ok? && hook in {OpensrpHook, PatientHook, EncounterHook} ==> r.value.source == JStr("opensrp")
    ensures r.Ok? && hook in {OpenlmisHook, RequisitionHook, StockHook, OpensrpHook, PatientHook, EncounterHook}
      ==> r.value.payload == JObj(body)
    ensures r.Ok? && hook == OpenlmisHook ==> r.value.eventType == GetOr(body, "type", JStr("unknown"))
    ensures r.Ok? && hook == RequisitionHook ==> r.value.eventType == JStr(ActionType("requisition.", body).value)
    ensures r.Ok? && hook == StockHook ==> r.value.eventType == JStr(ActionType("stock.", body).value)
    ensures r.Ok? && hook == OpensrpHook ==> r.value.eventType == OpensrpType(body).value
    ensures r.Ok? && hook == PatientHook ==> r.value.eventType == JStr(PatientType(body))
    ensures r.Ok? && hook in {EncounterHook, SimulateEncounter} ==> r.value.eventType == JStr("encounter.created")
    ensures r.Ok? && hook == Simulate ==>
      && r.value.source == GetOr(body, "source", JStr("openlmis"))
      && r.value.eventType == GetOr(body, "type", JStr("test.event"))
      && r.value.payload == GetOr(body, "payload", JObj(map[]))
    ensures r.Ok? && hook in {SimulateRequisition, SimulateStock} ==> r.value.source == JStr("openlmis")
    ensures r.Ok? && hook == SimulateRequisition ==> r.value.eventType == JStr("requisition.statusChange")
    ensures r.Ok? && hook == SimulateStock ==> r.value.eventType == JStr("stock.updated")
    ensures r.Ok? && hook in {SimulatePatient, SimulateEncounter} ==> r.value.source == JStr("opensrp")
    ensures r.Ok? && hook == SimulatePatient && "action" !in body ==> r.value.eventType == JStr("patient.created")
    ensures r.Ok? && hook == SimulatePatient && "action" in body ==>
      r.value.eventType == JStr("patient." + Render(body["action"]))
    ensures r.Ok? && hook == SimulatePatient && "action" in body && body["action"].JStr? ==>
      r.value.eventType == JStr("patient." + body["action"].s)
  {
    match hook
    case OpenlmisHook => Ok(Entry(JStr("openlmis"), GetOr(body, "type", JStr("unknown")), JObj(body)))
    case RequisitionHook =>
      (match ActionType("requisition.", body)
       case None => Err(Crash)
       case Some(t) => Ok(Entry(JStr("openlmis"), JStr(t), JObj(body))))
    case StockHook =>
      (match ActionType("stock.", body)
       case None => Err(Crash)
       case Some(t) => Ok(Entry(JStr("openlmis"), JStr(t), JObj(body))))
    case OpensrpHook =>
      (match OpensrpType(body)
       case None => Err(Crash)
       case Some(t) => Ok(Entry(JStr("opensrp"), t, JObj(body))))
    case PatientHook => Ok(Entry(JStr("opensrp"), JStr(PatientType(body)), JObj(body)))
    case EncounterHook => Ok(Entry(JStr("opensrp"), JStr("encounter.created"), JObj(body)))
    case Simulate =>
      Ok(Entry(GetOr(body, "source", JStr("openlmis")), GetOr(body, "type", JStr("test.event")),
               GetOr(body, "payload", JObj(map[]))))
    case SimulateRequisition => Ok(Entry(JStr("openlmis"), JStr("requisition.statusChange"), RequisitionPayload(body, stamp)))
    case SimulateStock => Ok(Entry(JStr("openlmis"), JStr("stock.updated"), StockPayload(body, stamp)))
    case SimulatePatient =>
      assert "patient." + Render(JStr("created")) == "patient.created";
      Ok(Entry(JStr("opensrp"), JStr("patient." + Render(GetOr(body, "action", JStr("created")))), PatientPayload(body, stamp)))
    case SimulateEncounter => Ok(Entry(JStr("opensrp"), JStr("encounter.created"), EncounterPayload(body, stamp, endStamp, hex8)))
  }

  /** The simulate endpoints never fail, whatever the body. */
  lemma SimulationNeverFails(hook: Hook, body: Object, stamp: string, endStamp: string, hex8: string)
    requires hook in {Simulate, SimulateRequisition, SimulateStock, SimulatePatient, SimulateEncounter}
    ensures Derive(hook, body, stamp, endStamp, hex8).Ok?
  {
  }

  class EventLog {
    var events: seq<Event>

    /** The log is empty at start-up. */
    constructor ()
      ensures events == [] && Valid()
    {
      events := [];
    }

    predicate Valid()
      reads this
    {
      |events| <= MaxEvents
    }

    /** `add_event`: insert in front, then pop from the back while over the bound. */
    method AddEvent(source: Json, eventType: Json, payload: Json, freshId: string, now: string) returns (e: Event)
      modifies this
      ensures e == Event(freshId, source, eventType, now + "Z", payload)
      ensures events == Pushed(old(events), e)
      ensures Valid()
    {
      e := Event(freshId, source, eventType, now + "Z", payload);
      events := [e] + events;
      while |events| > MaxEvents
        invariant |events| >= Min(|old(events)| + 1, MaxEvents)
        invariant events == ([e] + old(events))[..|events|]
        decreases |events|
      {
        events := events[..|events| - 1];
      }
    }

    /** DELETE /api/events. */
    method ClearEvents()
      modifies this
      ensures events == []
      ensures Valid()
    {
      events := [];
    }

    /** One webhook or simulate call: derive the entry and record it, or fail and
        record nothing. `payloadNow` and `endNow` are the clock readings a simulated
        payload takes (the second only for an encounter's period end), `now` the
        later one `add_event` takes; each stamp adds "Z". */
    method Receive(hook: Hook, body: Object, freshId: string, payloadNow: string, endNow: string, now: string, hex8: string)
      returns (r: Result<Event, HttpError>)
      requires Valid()
      modifies this
      ensures Valid()
      ensures var d := Derive(hook, body, payloadNow + "Z", endNow + "Z", hex8);
        && (d.Err? ==> r == Err(d.error) && events == old(events))
        && (d.Ok? ==> r.Ok? && r.value == Event(freshId, d.value.source, d.value.eventType, now + "Z", d.value.payload)
                      && events == Pushed(old(events), r.value))
    {
      var d := Derive(hook, body, payloadNow + "Z", endNow + "Z", hex8);
      if d.Err? {
        return Err(d.error);
      }
      var e := AddEvent(d.value.source, d.value.eventType, d.value.payload, freshId, now);
      r := Ok(e);
    }
  }
}
