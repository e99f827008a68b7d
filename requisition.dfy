/** The requisition store of the supply-chain mock: an in-memory list of
    requisitions, each moving along INITIATED → SUBMITTED → AUTHORIZED → APPROVED
    one guarded step at a time. */
module Requisitions {
  import opened Common

  datatype Status = Initiated | Submitted | Authorized | Approved

  /** The status as it is stored and compared in the records. */
  function StatusName(s: Status): string {
    match s
    case Initiated => "INITIATED"
    case Submitted => "SUBMITTED"
    case Authorized => "AUTHORIZED"
    case Approved => "APPROVED"
  }

  /** Position of a status along the approval path. */
  function Rank(s: Status): nat {
    match s
    case Initiated => 0
    case Submitted => 1
    case Authorized => 2
    case Approved => 3
  }

  /** A requisition record. The three foreign keys, the emergency flag and the
      line items are whatever JSON the creating request carried. */
  datatype Requisition = Requisition(
    id: string,
    facilityId: Json,
    programId: Json,
    processingPeriodId: Json,
    status: Status,
    emergency: Json,
    createdDate: string,
    modifiedDate: string,
    lineItems: Json)

  const NotFound := HttpError(404, "Requisition not found")

  // ---------------------------------------------------------------------
  // Reads
  // ---------------------------------------------------------------------

  /** The position of the first requisition carrying this id. */
  function IndexOf(store: seq<Requisition>, id: string): (r: Option<nat>)
    ensures r.Some? ==> r.value < |store| && store[r.value].id == id
    ensures r.Some? ==> forall j :: 0 <= j < r.value ==> store[j].id != id
    ensures r.None? ==> forall j :: 0 <= j < |store| ==> store[j].id != id
  {
    FindFirst(store, (x: Requisition) => x.id == id)
  }

  /** GET /api/requisitions/<id>: the first record with that id, or 404. */
  function GetRequisition(store: seq<Requisition>, id: string): (r: Result<Requisition, HttpError>)
    ensures r.Ok? <==> exists j :: 0 <= j < |store| && store[j].id == id
    ensures r.Ok? ==> r.value.id == id && r.value == store[IndexOf(store, id).value]
    ensures r.Err? ==> r.error == NotFound
  {
    match IndexOf(store, id)
    case None => Err(NotFound)
    case Some(i) => Ok(store[i])
  }

  /** The query parameters of GET /api/requisitions. */
  datatype Query = Query(
    facilityId: Option<string>,
    programId: Option<string>,
    processingPeriodId: Option<string>,
    status: Option<string>)

  /** A record satisfies every non-empty query parameter. */
  predicate Matches(q: Query, r: Requisition) {
    && (Given(q.facilityId) ==> IsText(r.facilityId, q.facilityId))
    && (Given(q.programId) ==> IsText(r.programId, q.programId))
    && (Given(q.processingPeriodId) ==> IsText(r.processingPeriodId, q.processingPeriodId))
    && (Given(q.status) ==> StatusName(r.status) == q.status.value)
  }

  function MatchesOf(q: Query): Requisition -> bool {
    r => Matches(q, r)
  }

  datatype Page = Page(content: seq<Requisition>, totalElements: nat, totalPages: nat, size: nat, number: nat)

  /** The four guarded comprehensions of GET /api/requisitions, one per parameter. */
  function FilterChain(store: seq<Requisition>, q: Query): seq<Requisition> {
    var byFacility := Refine(store, Given(q.facilityId), (r: Requisition) => IsText(r.facilityId, q.facilityId));
    var byProgram := Refine(byFacility, Given(q.programId), (r: Requisition) => IsText(r.programId, q.programId));
    var byPeriod := Refine(byProgram, Given(q.processingPeriodId), (r: Requisition) => IsText(r.processingPeriodId, q.processingPeriodId));
    Refine(byPeriod, Given(q.status), (r: Requisition) => q.status.Some? && StatusName(r.status) == q.status.value)
  }

  /** The chain of comprehensions keeps exactly the records matching the
      conjunction of the given parameters, in store order. */
  lemma ChainIsConjunction(store: seq<Requisition>, q: Query)
    ensures FilterChain(store, q) == Filter(store, MatchesOf(q))
  {
    var p1 := (r: Requisition) => IsText(r.facilityId, q.facilityId);
    var p2 := (r: Requisition) => IsText(r.programId, q.programId);
    var p3 := (r: Requisition) => IsText(r.processingPeriodId, q.processingPeriodId);
    var p4 := (r: Requisition) => q.status.Some? && StatusName(r.status) == q.status.value;
    var c1 := (r: Requisition) => Given(q.facilityId) ==> IsText(r.facilityId, q.facilityId);
    var c2 := (r: Requisition) => c1(r) && (Given(q.programId) ==> IsText(r.programId, q.programId));
    var c3 := (r: Requisition) => c2(r) && (Given(q.processingPeriodId) ==> IsText(r.processingPeriodId, q.processingPeriodId));
    RefineFirst(store, Given(q.facilityId), p1, c1);
    RefineStep(store, c1, Given(q.programId), p2, c2);
    RefineStep(store, c2, Given(q.processingPeriodId), p3, c3);
    RefineStep(store, c3, Given(q.status), p4, MatchesOf(q));
  }

  /** GET /api/requisitions: the matching records as a single page. */
  function ListRequisitions(store: seq<Requisition>, q: Query): (page: Page)
    ensures page.content == Filter(store, MatchesOf(q))
    ensures page.totalElements == page.size == |page.content|
    ensures page.totalPages == 1 && page.number == 0
  {
    var filtered := FilterChain(store, q);
    ChainIsConjunction(store, q);
    Page(filtered, |filtered|, 1, |filtered|, 0)
  }

  /** Awaiting an action of the approval chain. */
  predicate AwaitingApproval(r: Requisition) {
    r.status == Submitted || r.status == Authorized
  }

  predicate ReadyForConversion(r: Requisition) {
    r.status == Approved
  }

  datatype View = View(content: seq<Requisition>, totalElements: nat)

  /** GET /api/requisitions-for-approval: the SUBMITTED and AUTHORIZED records, in store order. */
  function ForApproval(store: seq<Requisition>): (v: View)
    ensures v.content == Filter(store, AwaitingApproval)
    ensures v.totalElements == |v.content|
  {
    var pending := Filter(store, (r: Requisition) => StatusName(r.status) in ["SUBMITTED", "AUTHORIZED"]);
    FilterExt(store, (r: Requisition) => StatusName(r.status) in ["SUBMITTED", "AUTHORIZED"], AwaitingApproval);
    View(pending, |pending|)
  }

  /** GET /api/requisitions-for-convert-to-order: the APPROVED records, in store order. */
  function ForConversion(store: seq<Requisition>): (v: View)
    ensures v.content == Filter(store, ReadyForConversion)
    ensures v.totalElements == |v.content|
  {
    var approved := Filter(store, (r: Requisition) => StatusName(r.status) == "APPROVED");
    FilterExt(store, (r: Requisition) => StatusName(r.status) == "APPROVED", ReadyForConversion);
    View(approved, |approved|)
  }

  predicate IsInitiated(r: Requisition) {
    r.status == Initiated
  }

  /** Every record is in exactly one of: still initiated, the approval view, the conversion view. */
  lemma {:induction false} ViewsPartition(store: seq<Requisition>)
    ensures |Filter(store, IsInitiated)| + |ForApproval(store).content| + |ForConversion(store).content| == |store|
  {
    if store != [] {
      ViewsPartition(store[1..]);
    }
  }

  // ---------------------------------------------------------------------
  // The lifecycle
  // ---------------------------------------------------------------------

  datatype Action = Submit | Authorize | Approve

  function Verb(a: Action): string {
    match a
    case Submit => "submit"
    case Authorize => "authorize"
    case Approve => "approve"
  }

  /** The only status each action accepts. */
  function Required(a: Action): Status {
    match a
    case Submit => Initiated
    case Authorize => Submitted
    case Approve => Authorized
  }

  /** The status each action moves to. */
  function Target(a: Action): Status {
    match a
    case Submit => Submitted
    case Authorize => Authorized
    case Approve => Approved
  }

  /** The status guard of the submit, authorize and approve handlers. */
  function Step(s: Status, a: Action): (r: Result<Status, HttpError>)
    ensures r.Ok? <==> s == Required(a)
    ensures r.Ok? ==> Rank(r.value) == Rank(s) + 1
    ensures s == Approved ==> r.Err?
    ensures r.Err? ==> r.error == HttpError(400, "Cannot " + Verb(a) + " requisition in " + StatusName(s) + " status")
  {
    if s != Required(a) then Err(HttpError(400, "Cannot " + Verb(a) + " requisition in " + StatusName(s) + " status"))
    else Ok(Target(a))
  }

  /** Applying a sequence of actions, stopping at the first rejection. */
  function Run(s: Status, acts: seq<Action>): Result<Status, HttpError>
    decreases |acts|
  {
    if acts == [] then Ok(s)
    else match Step(s, acts[0])
      case Err(e) => Err(e)
      case Ok(t) => Run(t, acts[1..])
  }

  /** The one path through the lifecycle. */
  const Path: seq<Action> := [Submit, Authorize, Approve]

  /** A run of actions that is accepted throughout follows the path from where it
      starts, one status per action: no skips, no regressions, no repeats. */
  lemma {:induction false} RunFollowsPath(s: Status, acts: seq<Action>)
    requires Run(s, acts).Ok?
    ensures Rank(Run(s, acts).value) == Rank(s) + |acts|
    ensures Rank(s) + |acts| <= 3
    ensures acts == Path[Rank(s)..Rank(s) + |acts|]
    decreases |acts|
  {
    if acts != [] {
      var t := Step(s, acts[0]).value;
      RunFollowsPath(t, acts[1..]);
      assert acts == [acts[0]] + acts[1..];
    }
  }

  /** Repeating an accepted action is rejected. */
  lemma RepeatRejected(s: Status, a: Action)
    requires Step(s, a).Ok?
    ensures Run(s, [a, a]).Err?
  {
    assert [a, a][1..] == [a];
  }

  /** Submit, authorize and approve take a new requisition to APPROVED. */
  lemma FullPath()
    ensures Run(Initiated, Path) == Ok(Approved)
  {
    assert Path[1..] == [Authorize, Approve];
    assert Path[1..][1..] == [Approve];
  }

  /** A record after a successful transition. */
  function Advanced(r: Requisition, t: Status, now: string): Requisition {
    r.(status := t, modifiedDate := now)
  }

  /** An accepted transition of record i moves it between the views: submit adds
      it to the approval view, authorize keeps it there, approve moves it to the
      conversion view. */
  lemma {:induction false} TransitionMovesViews(store: seq<Requisition>, i: nat, a: Action, now: string)
    requires i < |store| && Step(store[i].status, a).Ok?
    ensures var after := store[i := Advanced(store[i], Target(a), now)];
      && |ForApproval(after).content| == |ForApproval(store).content| + (if a == Submit then 1 else if a == Approve then -1 else 0)
      && |ForConversion(after).content| == |ForConversion(store).content| + (if a == Approve then 1 else 0)
  {
    var x := Advanced(store[i], Target(a), now);
    FilterCountUpdate(store, i, x, AwaitingApproval);
    FilterCountUpdate(store, i, x, ReadyForConversion);
  }

  // ---------------------------------------------------------------------
  // Save
  // ---------------------------------------------------------------------

  /** The record after PUT .../save: line items replaced wholesale when the body
      carries them, modification date refreshed, nothing else touched. */
  function Saved(r: Requisition, body: Object, now: string): (s: Requisition)
    ensures s.id == r.id && s.status == r.status
    ensures s.facilityId == r.facilityId && s.programId == r.programId
    ensures s.processingPeriodId == r.processingPeriodId
    ensures s.emergency == r.emergency && s.createdDate == r.createdDate
    ensures s.modifiedDate == now
    ensures "requisitionLineItems" in body ==> s.lineItems == body["requisitionLineItems"]
    ensures "requisitionLineItems" !in body ==> s.lineItems == r.lineItems
  {
    var r' := if "requisitionLineItems" in body then r.(lineItems := body["requisitionLineItems"]) else r;
    r'.(modifiedDate := now)
  }

  // ---------------------------------------------------------------------
  // Create
  // ---------------------------------------------------------------------

  const RequiredFields: seq<string> := ["facilityId", "programId", "processingPeriodId"]

  /** The three foreign keys are present as keys; their values are not examined. */
  predicate HasRequiredFields(body: Object) {
    forall k :: k in RequiredFields ==> k in body
  }

  // ---------------------------------------------------------------------
  // The store
  // ---------------------------------------------------------------------

  class RequisitionStore {
    var requisitions: seq<Requisition>

    constructor (seed: seq<Requisition>)
      ensures requisitions == seed
    {
      requisitions := seed;
    }

    /** POST /api/requisitions. */
    method Create(body: Object, freshId: string, createdAt: string, modifiedAt: string)
      returns (r: Result<Requisition, HttpError>)
      modifies this
      ensures r.Ok? <==> HasRequiredFields(body)
      ensures r.Err? ==> r.error == HttpError(400, "Missing required fields")
      ensures r.Err? ==> requisitions == old(requisitions)
      ensures r.Ok? ==> requisitions == old(requisitions) + [r.value]
      ensures r.Ok? ==> r.value == Requisition(
        freshId, body["facilityId"], body["programId"], body["processingPeriodId"],
        Initiated, GetOr(body, "emergency", JBool(false)), createdAt, modifiedAt,
        GetOr(body, "requisitionLineItems", JArr([])))
    {
      if !("facilityId" in body && "programId" in body && "processingPeriodId" in body) {
        return Err(HttpError(400, "Missing required fields"));
      }
      var req := Requisition(
        freshId, body["facilityId"], body["programId"], body["processingPeriodId"],
        Initiated, GetOr(body, "emergency", JBool(false)), createdAt, modifiedAt,
        GetOr(body, "requisitionLineItems", JArr([])));
      requisitions := requisitions + [req];
      r := Ok(req);
    }

    /** PUT /api/requisitions/<id>/save: legal in every status. */
    method Save(id: string, body: Object, now: string) returns (r: Result<Requisition, HttpError>)
      modifies this
      ensures IndexOf(old(requisitions), id).None? ==>
        r == Err(NotFound) && requisitions == old(requisitions)
      ensures IndexOf(old(requisitions), id).Some? ==>
        var i := IndexOf(old(requisitions), id).value;
        && requisitions == old(requisitions)[i := Saved(old(requisitions)[i], body, now)]
        && r == Ok(requisitions[i])
    {
      var found := IndexOf(requisitions, id);
      if found.None? {
        return Err(NotFound);
      }
      var i := found.value;
      var updated := Saved(requisitions[i], body, now);
      requisitions := requisitions[i := updated];
      r := Ok(updated);
    }

    /** PUT /api/requisitions/<id>/submit, /authorize and /approve. */
    method Transition(id: string, a: Action, now: string) returns (r: Result<Requisition, HttpError>)
      modifies this
      ensures IndexOf(old(requisitions), id).None? ==>
        r == Err(NotFound) && requisitions == old(requisitions)
      ensures IndexOf(old(requisitions), id).Some? ==>
        var i := IndexOf(old(requisitions), id).value;
        var before := old(requisitions)[i];
        if before.status != Required(a) then
          && r == Err(HttpError(400, "Cannot " + Verb(a) + " requisition in " + StatusName(before.status) + " status"))
          && requisitions == old(requisitions)
        else
          && requisitions == old(requisitions)[i := Advanced(before, Target(a), now)]
          && r == Ok(requisitions[i])
    {
      var found := IndexOf(requisitions, id);
      if found.None? {
        return Err(NotFound);
      }
      var i := found.value;
      match Step(requisitions[i].status, a)
      case Err(e) =>
        r := Err(e);
      case Ok(t) =>
        var updated := Advanced(requisitions[i], t, now);
        requisitions := requisitions[i := updated];
        r := Ok(updated);
    }
  }

  /** Rewriting a record without changing its id moves no lookup. */
  lemma IndexOfKeptByUpdate(store: seq<Requisition>, k: nat, x: Requisition, id: string)
    requires k < |store| && x.id == store[k].id
    ensures IndexOf(store[k := x], id) == IndexOf(store, id)
  {
    FindFirstAgree(store[k := x], (y: Requisition) => y.id == id, store, (y: Requisition) => y.id == id);
  }

  /** An approved requisition is listed for conversion and not for approval. */
  lemma ApprovedIsListedForConversionOnly(store: seq<Requisition>, i: nat)
    requires i < |store| && store[i].status == Approved
    ensures store[i] in ForConversion(store).content
    ensures store[i] !in ForApproval(store).content
  {
  }
}
