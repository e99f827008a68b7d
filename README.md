# OpenLMIS / OpenSRP mock backend — a Dafny model

This project models the route handlers of a mock backend used for integration
testing. The backend plays two systems:

- an OpenLMIS supply-chain service: requisitions with a four-state approval
  lifecycle, stock cards with a movement ledger, OAuth2 tokens and reference data;
- an OpenSRP FHIR gateway: Patient, Location, Organization, Practitioner and
  PractitionerRole search, read, create and versioned update.

It also models the webhook receiver, which keeps a bounded, newest-first log of
the events it receives or simulates.

There is one module per route file, and each module lives in its own file. All
of them share `Common` (`common.dfy`), which holds these pieces:

- the JSON value type, with objects as maps from text keys;
- Python truthiness, `dict.get` and query-parameter presence;
- the list-comprehension filter `Filter` and the `next(...)` search `FindFirst`;
- a generic filter chain with its conjunction lemma;
- ASCII lower-casing and substring search;
- decimal printing and parsing, with their round trip.

The model takes the shape of the source:

- A store the handlers mutate in place is a class with a `seq` (or `map`) field,
  and its handlers are methods with `modifies`:
  - `Requisitions.RequisitionStore`
  - `Stock.StockLedger`
  - `Webhooks.EventLog`
  - `Fhir.FhirStore`
  - `Auth.TokenRegistry`
- Each method's postcondition ties the new state to a pure function of the old
  one, and lemmas prove properties of those functions.
- Read-only views (list comprehensions and `next(...)` lookups) are pure functions.
- Loops in the source are methods with loop invariants:
  - the stock-event loop, `Stock.StockLedger.RecordEvent`;
  - the trimming loop of `add_event`, `Webhooks.EventLog.AddEvent`;
  - the zone and facility-type de-duplication, `Reference.Dedup`.
- Fresh uuids and clock readings are parameters.
- Fixtures are constructor arguments or function parameters.

Two details of the code are kept as written:

- `createdDate` and `modifiedDate` of a new requisition are two separate clock
  reads (`routes/openlmis_requisition.py:92-93`), so `RequisitionStore.Create`
  takes two readings. Likewise every clock read of a simulated webhook payload, of
  `add_event` and of each stock line's default date is its own parameter.
- The stock-event acknowledgement's count key is `lineItems`
  (`routes/openlmis_stock.py:139-143`), and `EventAck` carries that count.

## Model

| member | source | states |
|---|---|---|
| Requisitions.IndexOf | routes/openlmis_requisition.py:105 | the position of the first requisition with the id, and no earlier one has it; None exactly when no requisition has the id |
| Requisitions.GetRequisition | routes/openlmis_requisition.py:66-71 | found exactly when some requisition has the id; the result is the first such one; otherwise 404 "Requisition not found" |
| Requisitions.ChainIsConjunction | routes/openlmis_requisition.py:42-51 | applying the four optional filters one after the other equals one filter by their conjunction |
| Requisitions.ListRequisitions | routes/openlmis_requisition.py:42-59 | the page holds exactly the requisitions that match every supplied parameter, in store order; total and size equal the count, one page, page 0 |
| Requisitions.ForApproval | routes/openlmis_requisition.py:179-184 | exactly the SUBMITTED or AUTHORIZED requisitions, in order, with their count |
| Requisitions.ForConversion | routes/openlmis_requisition.py:191-196 | exactly the APPROVED requisitions, in order, with their count |
| Requisitions.ViewsPartition | routes/openlmis_requisition.py:175-196 | the INITIATED requisitions, the approval view and the conversion view together count every requisition exactly once |
| Requisitions.Step | routes/openlmis_requisition.py:121-172 | submit, authorize and approve succeed exactly from INITIATED, SUBMITTED and AUTHORIZED respectively; success moves one rank forward; APPROVED admits no step; a refusal is 400 "Cannot <verb> requisition in <STATUS> status" |
| Requisitions.RunFollowsPath | routes/openlmis_requisition.py:121-172 | any successful sequence of transitions is a contiguous stretch of submit, authorize, approve starting at the current status, and never goes past APPROVED |
| Requisitions.RepeatRejected | routes/openlmis_requisition.py:130-131 | a transition that succeeds fails when repeated immediately |
| Requisitions.FullPath | routes/openlmis_requisition.py:121-172 | submit, authorize, approve takes INITIATED to APPROVED |
| Requisitions.TransitionMovesViews | routes/openlmis_requisition.py:133-191 | an accepted submit lengthens the approval view by one, authorize keeps its length, approve shortens it by one; only approve lengthens the conversion view, by one |
| Requisitions.Saved | routes/openlmis_requisition.py:113-116 | saving keeps id, status, facility, program, period, emergency and creation date; sets the modification date; replaces the line items exactly when the body carries them |
| Requisitions.IndexOfKeptByUpdate | routes/openlmis_requisition.py:125-134 | rewriting a record in place without changing its id leaves every id lookup where it was |
| Requisitions.ApprovedIsListedForConversionOnly | routes/openlmis_requisition.py:179-191 | an approved requisition is in the conversion view and not in the approval view |
| Requisitions.RequisitionStore.Create | routes/openlmis_requisition.py:82-98 | succeeds exactly when the body has all three required keys; then appends a new INITIATED requisition with the body's keys, `emergency` default false, line items default empty; otherwise 400 "Missing required fields" and no change |
| Requisitions.RequisitionStore.Save | routes/openlmis_requisition.py:104-118 | unknown id: 404 and no change; otherwise the first match is replaced by `Saved` of it and nothing else changes |
| Requisitions.RequisitionStore.Transition | routes/openlmis_requisition.py:124-136 | unknown id: 404; a refused step: its 400 and no change; otherwise the first match alone gets the target status and the new modification date |
| Stock.FacilityProgramChainIsConjunction | routes/openlmis_stock.py:80-83 | the facility-then-program filter equals the filter by both conditions |
| Stock.ListCards | routes/openlmis_stock.py:41-53 | exactly the cards matching every supplied parameter, in order, with their count |
| Stock.GetCard | routes/openlmis_stock.py:60-65 | found exactly when some card has the id; the first such card; otherwise 404 "Stock card not found" |
| Stock.Summaries | routes/openlmis_stock.py:79-97 | one summary per card selected by facility and program, in order, carrying that card's id, orderable and stock on hand |
| Stock.LineItemReasons | routes/openlmis_stock.py:169-180 | six reasons with distinct ids, two CREDIT and four DEBIT |
| Stock.ReasonOf | routes/openlmis_stock.py:132 | a movement's reason is always truthy, whatever the line supplies |
| Stock.NewMovement | routes/openlmis_stock.py:128-135 | the movement carries the fresh id, the line's quantity (default 0), its reason, its date (default the clock reading) and its source and destination (null when absent) |
| Stock.AppliedIsRecordedTotal | routes/openlmis_stock.py:115-137 | the change in a card's stock on hand equals the sum of the quantities of the movements appended to it |
| Stock.PostingKeepsDrift | routes/openlmis_stock.py:136-137 | stock on hand minus the total of the card's movements is the same before and after an event |
| Stock.RecordedCount | routes/openlmis_stock.py:115-137 | a card receives exactly as many movements as there are lines whose orderable first resolves to it |
| Stock.UnservedCardUnchanged | routes/openlmis_stock.py:121-126 | a card that no line resolves to is left exactly as it was |
| Stock.TargetByOrderable | routes/openlmis_stock.py:121-124 | the card a line resolves to depends only on its orderable id |
| Stock.ReasonDoesNotAffectBalance | routes/openlmis_stock.py:126-137 | two events whose lines agree on orderable and quantity change every balance by the same amount, whatever their reasons, dates or endpoints |
| Stock.PostedStep | routes/openlmis_stock.py:126-137 | one more line appends one movement and adds its quantity to the card it resolves to, and leaves every other card alone |
| Stock.PostLineAdvances | routes/openlmis_stock.py:115-137 | posting the next line to the ledger reached so far gives the ledger after that many lines |
| Stock.StockLedger.RecordEvent | routes/openlmis_stock.py:105-143 | an absent or empty body gives 400 "Request body required" and no change; otherwise every card becomes its state after all lines are posted, and the acknowledgement is PROCESSED with the number of lines |
| Webhooks.Pushed | routes/webhooks.py:29-33 | the new event is first, the rest is a prefix of the old log, and the length is the old length plus one, capped at 100 |
| Webhooks.PushedKeepsAllBelowBound | routes/webhooks.py:29-33 | below the bound, nothing is dropped |
| Webhooks.PushedDropsOldest | routes/webhooks.py:32-33 | at the bound, exactly the oldest event is dropped |
| Webhooks.EventLog.constructor | routes/webhooks.py:16 | the log starts empty |
| Webhooks.EventLog.AddEvent | routes/webhooks.py:20-35 | the returned event carries the id, source, type, timestamp with "Z" and payload; the log becomes `Pushed` of the old log and stays within 100 |
| Webhooks.EventLog.ClearEvents | routes/webhooks.py:63-64 | the log becomes empty |
| Webhooks.LimitReadsDecimal | routes/webhooks.py:45 | any integer written in decimal is read back as the limit |
| Webhooks.ListEvents | routes/webhooks.py:43-57 | `total` counts all matching events; `events` is the Python slice `[:limit]` of them, newest first |
| Webhooks.NewestListedFirst | routes/webhooks.py:29-55 | an event just recorded that matches the query heads the listing when the limit is positive |
| Webhooks.ActionType | routes/webhooks.py:103 | the prefix followed by the action, "update" when absent; fails exactly when the action is not text |
| Webhooks.OpensrpType | routes/webhooks.py:146-147 | `type` when present, else the lower-cased `resourceType`, else "unknown"; fails exactly when `resourceType` is present and not text |
| Webhooks.PatientType | routes/webhooks.py:167 | "patient.updated" exactly when the body has a truthy id, else "patient.created" |
| Webhooks.Derive | routes/webhooks.py:69-330 | which endpoints fail (500, exactly the three whose type expression raises); for every endpoint, the source, the event type it records (`type` or "unknown"; the action rule; the OpenSRP type rule; the patient rule; "encounter.created"; the simulate defaults and fixed types; for the patient simulation, "patient." + the action, "patient.created" without one) and, for the receiving endpoints and the generic simulate, the payload |
| Webhooks.SimulationNeverFails | routes/webhooks.py:200-330 | the simulate endpoints succeed for every body |
| Webhooks.EventLog.Receive | routes/webhooks.py:69-335 | a failing endpoint leaves the log unchanged; otherwise the derived entry, built from its own payload clock readings, is recorded through `Pushed` and returned; the log stays within 100 |
| Fhir.CreateOperationOutcome | routes/opensrp_fhir.py:93-104 | one issue carrying the given severity, code and diagnostics |
| Fhir.CreateBundle | routes/opensrp_fhir.py:72-90 | a searchset stamped `now` + "Z", whose total is the number of resources, with one "match" entry per resource, in order, each with fullUrl `urn:uuid:` + its id |
| Fhir.BundleRoundTrip | routes/opensrp_fhir.py:82-89 | the resources read back from a bundle's entries are the resources it was built from |
| Fhir.SearchPatients | routes/opensrp_fhir.py:124-144 | the bundle of exactly the patients matching every supplied parameter (id, identifier, case-insensitive given name, gender, birth date), in store order |
| Fhir.PatientNameSearchIgnoresCase | routes/opensrp_fhir.py:132-138 | searching by a name and by its lower-cased form returns the same bundle |
| Fhir.SearchLocations | routes/opensrp_fhir.py:227-243 | the bundle of exactly the locations matching id, identifier, name substring (case-insensitive), status and partOf |
| Fhir.SearchOrganizations | routes/opensrp_fhir.py:298-315 | the bundle of exactly the organizations matching id, identifier, name substring, active flag and partOf |
| Fhir.ActiveOtherThanTrueSelectsInactive | routes/opensrp_fhir.py:309-311 | any `active` value other than a spelling of "true" selects the organizations whose active flag is false |
| Fhir.SearchPractitioners | routes/opensrp_fhir.py:345-364 | the bundle of exactly the practitioners matching id, identifier, given name and active flag |
| Fhir.SearchPractitionerRoles | routes/opensrp_fhir.py:395-411 | the bundle of exactly the roles matching id, practitioner and organization references, any of the location references, and the active flag |
| Fhir.GetResource | routes/opensrp_fhir.py:150-156 | found exactly when some resource has the id; the first such; otherwise 404 with "Kind/id not found" |
| Fhir.MetaVersionRoundTrip | routes/opensrp_fhir.py:198-204 | the version written into `meta` is the one read back |
| Fhir.Created | routes/opensrp_fhir.py:164-176 | a body that is not of the kind is 400 "Invalid Kind resource"; otherwise the body with its id (or the prefix and eight fresh characters), `meta` exactly `{versionId: "1", lastUpdated}` and every other field kept |
| Fhir.CreateThenRead | routes/opensrp_fhir.py:164-181 | a created resource with a fresh id reads back as itself |
| Fhir.DuplicateCreateIsShadowed | routes/opensrp_fhir.py:168-176 | creating with an id already present leaves reads returning the earlier resource |
| Fhir.Upsert | routes/opensrp_fhir.py:188-206 | invalid body 400; a valid body whose stored version cannot be read 500; every other valid body succeeds: the first patient with the id is replaced in place, or the record is appended, with id set, `meta` exactly the next version as text and the clock reading, and the body's other fields kept |
| Fhir.UpsertThenRead | routes/opensrp_fhir.py:195-206 | after an update the patient reads back as the stored body |
| Fhir.UpsertBumpsVersion | routes/opensrp_fhir.py:196-206 | the version after an update is one more than the stored one, or 1 for a new patient |
| Fhir.FhirStore.CreatePatient | routes/opensrp_fhir.py:160-181 | the result is `Created` for Patient; on success it is appended and nothing else changes |
| Fhir.FhirStore.CreateLocation | routes/opensrp_fhir.py:259-279 | the result is `Created` for Location; on success it is appended and nothing else changes |
| Fhir.FhirStore.UpdatePatient | routes/opensrp_fhir.py:185-208 | the patients become those of `Upsert`; errors change nothing |
| Auth.Login | routes/openlmis_auth.py:32 | the first user whose username and password both equal the supplied ones; none exactly when no user matches |
| Auth.CheckToken | routes/openlmis_auth.py:62-72 | succeeds exactly for a registered token, reporting its user name, user id and role; else 401 invalid_token |
| Auth.TokenRegistry.constructor | routes/openlmis_auth.py:19 | the registry starts empty |
| Auth.TokenRegistry.GetToken | routes/openlmis_auth.py:28-56 | bad credentials give 401 invalid_grant and no change; a match registers exactly the new token for that user and returns a bearer token valid for 3600 s; no token is ever removed |
| Auth.IssuedTokenChecks | routes/openlmis_auth.py:44-70 | a token just issued checks out as the user who logged in |
| Auth.StripPassword | routes/openlmis_auth.py:94 | every key but `password`, values unchanged |
| Auth.ListUsers | routes/openlmis_auth.py:80 | every user in order, each without `password` and otherwise unchanged |
| Auth.GetUser | routes/openlmis_auth.py:88-95 | the first user with the id, without its password; otherwise 404 "User not found" |
| Auth.SplitSpaces | routes/openlmis_auth.py:102 | `split(' ')` never yields an empty list nor a field containing a space |
| Auth.SplitJoinRoundTrip | routes/openlmis_auth.py:102 | joining the fields with single spaces gives the header back |
| Auth.SecondFieldAfterBearer | routes/openlmis_auth.py:100-102 | after "Bearer " the second field is the first word of the rest |
| Auth.GetTokenUser | routes/openlmis_auth.py:98-103 | a registry entry exactly when the header starts with "Bearer " and the first word after it is a registered token |
| Auth.BearerFindsToken | routes/openlmis_auth.py:100-103 | `Bearer <token>` finds a registered token without spaces |
| Reference.ListFacilities | routes/openlmis_reference.py:27-37 | exactly the facilities matching the active flag (when given) and zone (when non-empty), in order, with their count |
| Reference.ListPrograms | routes/openlmis_reference.py:58-66 | exactly the programs matching the active flag; all of them when it is absent |
| Reference.ListOrderables | routes/openlmis_reference.py:88-95 | exactly the orderables whose product code contains the code, ignoring case; all when no code |
| Reference.CodeOccurrenceIsListed | routes/openlmis_reference.py:90 | an orderable whose code contains the searched text is listed |
| Reference.GetById | routes/openlmis_reference.py:44-47 | found exactly when some record has the id; the first such; otherwise the given 404 |
| Reference.GetFacility | routes/openlmis_reference.py:44-49 | 404 "Facility not found" exactly when no facility has the id; otherwise a facility carrying the id |
| Reference.GetProgram | routes/openlmis_reference.py:73-78 | 404 "Program not found" exactly when no program has the id; otherwise a program carrying the id |
| Reference.GetOrderable | routes/openlmis_reference.py:102-107 | 404 "Orderable not found" exactly when no orderable has the id; otherwise an orderable carrying the id |
| Reference.GetProcessingPeriod | routes/openlmis_reference.py:126-131 | 404 "Processing period not found" exactly when no period has the id; otherwise a period carrying the id |
| Reference.Sections | routes/openlmis_reference.py:140 | the section of every facility, `{}` when missing |
| Reference.DistinctIdsComplete | routes/openlmis_reference.py:139-142 | an id is listed exactly when some item with a truthy id carries it |
| Reference.DistinctIdsUnique | routes/openlmis_reference.py:142-144 | no id is listed twice |
| Reference.LastWithCarriesId | routes/openlmis_reference.py:140-142 | the value kept for an id is one of the items, carrying that id |
| Reference.Dedup | routes/openlmis_reference.py:138-144 | one entry per distinct truthy id, in order of first occurrence, each the last item with that id |
| Reference.ListGeographicZones | routes/openlmis_reference.py:134-148 | the facilities' zones de-duplicated by id, with their count |
| Reference.ListFacilityTypes | routes/openlmis_reference.py:151-165 | the facilities' types de-duplicated by id, with their count |
| Common.ChainIsConjunction | routes/opensrp_fhir.py:124-142 | a chain of optional filters equals one filter by the conjunction of the enabled ones |
| Common.FindFirst | routes/openlmis_requisition.py:66 | `next(...)`: the first index satisfying the condition; none exactly when no element does |
| Common.IntRoundTrip | routes/opensrp_fhir.py:198 | `int(str(n)) == n` for the decimal forms the model reads |
| Common.SlicePrefix | routes/webhooks.py:55 | Python's `s[:limit]`, including negative limits |

## Left out

- HTTP plumbing is left out because the route bodies are modelled directly. This covers Flask routing, `jsonify`, success status codes (200/201), the `Location` header of the FHIR creates, and the `received`/`eventId`/`simulated` envelopes of the webhook replies.
- Fixture files are not read. Their contents are constructor arguments or function parameters. The reference and user fixtures, which are re-read on every request, are constants.
- uuid generation and clock readings are parameters.
- Concurrency is left out, because each handler is modelled as one atomic call.
- `lower()` is ASCII-only, since Unicode case folding is not modelled.
- Python equalities between values of different types (`1 == True`, `1 == 1.0`) are not modelled: equality here is structural.
- Python `repr` of lists and objects inside f-strings renders as "": in the simulated webhook payloads and in `Fhir.CreateBundle`'s `fullUrl` for an id that is not text.
- Fhir.Crash and Webhooks.Crash: the 500 these carry (an OperationOutcome for FHIR, an error message for webhooks) stands in for the default HTML error page the web framework sends for an uncaught exception. The model keeps the status only; the body is not the one the server sends.
- Crashes on malformed request or fixture data are left out:
  - a body that is not an object;
  - a requisition create or save without a body;
  - a list element or nested field of the wrong type, which the model reads as "does not match".
  - Fixture records are assumed to carry their `id` keys, and the reference filters assume the keys they subscript: facility `active` and `geographicZone['id']` (`routes/openlmis_reference.py:30,32`), program `active` (`:61`) and orderable `productCode` (`:90`). Where Python raises KeyError (a 500), `Reference.ListFacilities`, `Reference.ListPrograms` and `Reference.ListOrderables` treat the record as not matching.
  - Seeded requisitions and stock cards are fixed Dafny records: extra keys of a seeded record, and a requisition status outside the four of the lifecycle, are not represented, although the source would keep and return them.
- The username/password extraction from form or JSON is left out. `Auth.TokenRegistry.GetToken` receives the two values; `check_token` receives the token.
- The capability statement (`routes/opensrp_fhir.py:428-454`) is left out as a constant document.
- Three constant lists are left out as pass-throughs of fixture lists: valid sources and destinations (`routes/openlmis_stock.py:146-163`) and the processing-period list (`routes/openlmis_reference.py:110-119`).
- Location update, and update of the read-only FHIR kinds, do not exist in the source.
- `create_bundle`'s resource-type parameter is unused by the source and not modelled.
- Stock.StockLedger.RecordEvent: the body is split into its `lineItems` entry and the other keys, so it requires that the other keys hold no `lineItems`.
- Stock.StockLedger.RecordEvent: a non-integer quantity or a non-object line item is not modelled. For a non-integer quantity, Python has already appended that line's movement when `stockOnHand += quantity` raises: the earlier lines stay applied, and the failing line's movement is kept while its card's balance is unchanged.
- Webhooks.LimitOf: `int()` accepts surrounding whitespace, `+` and digit underscores. The model reads only an optional `-` followed by decimal digits.
- Fhir.VersionOf: likewise reads `versionId` text as an optional `-` and decimal digits; floats in `versionId` are not modelled.
- Reference.Dedup: Python dictionary keys conflate equal numbers of different types; the model keys by structural JSON equality.
