/** The stock ledger of the supply-chain mock: stock cards seeded at start-up,
    each a running balance with its movement history, changed only by stock events. */
module Stock {
  import opened Common

  /** One recorded movement on a card. */
  datatype Movement = Movement(
    id: string,
    occurredDate: Json,
    quantity: int,
    reason: Json,
    source: Json,
    destination: Json)

  datatype StockCard = StockCard(
    id: string,
    facilityId: string,
    programId: string,
    orderableId: string,
    stockOnHand: int,
    lineItems: seq<Movement>)

  const CardNotFound := HttpError(404, "Stock card not found")

  // ---------------------------------------------------------------------
  // Card listing, lookup and summaries
  // ---------------------------------------------------------------------

  /** The query parameters of GET /api/stockCards. */
  datatype CardQuery = CardQuery(facilityId: Option<string>, programId: Option<string>, orderableId: Option<string>)

  /** A card satisfies every non-empty query parameter. */
  predicate CardMatches(q: CardQuery, c: StockCard) {
    && (Given(q.facilityId) ==> c.facilityId == q.facilityId.value)
    && (Given(q.programId) ==> c.programId == q.programId.value)
    && (Given(q.orderableId) ==> c.orderableId == q.orderableId.value)
  }

  function CardMatchesOf(q: CardQuery): StockCard -> bool {
    c => CardMatches(q, c)
  }

  function ByFacility(q: CardQuery): StockCard -> bool {
    (c: StockCard) => q.facilityId.Some? && c.facilityId == q.facilityId.value
  }

  function ByProgram(q: CardQuery): StockCard -> bool {
    (c: StockCard) => q.programId.Some? && c.programId == q.programId.value
  }

  function ByOrderable(q: CardQuery): StockCard -> bool {
    (c: StockCard) => q.orderableId.Some? && c.orderableId == q.orderableId.value
  }

  /** The facility and program stages shared by the card list and the summaries. */
  function FacilityProgramChain(cards: seq<StockCard>, q: CardQuery): seq<StockCard> {
    Refine(Refine(cards, Given(q.facilityId), ByFacility(q)), Given(q.programId), ByProgram(q))
  }

  lemma FacilityProgramChainIsConjunction(cards: seq<StockCard>, q: CardQuery)
    ensures FacilityProgramChain(cards, q) ==
      Filter(cards, c => (Given(q.facilityId) ==> ByFacility(q)(c)) && (Given(q.programId) ==> ByProgram(q)(c)))
  {
    var c1 := (c: StockCard) => Given(q.facilityId) ==> ByFacility(q)(c);
    RefineFirst(cards, Given(q.facilityId), ByFacility(q), c1);
    RefineStep(cards, c1, Given(q.programId), ByProgram(q),
      c => (Given(q.facilityId) ==> ByFacility(q)(c)) && (Given(q.programId) ==> ByProgram(q)(c)));
  }

  datatype CardListing = CardListing(content: seq<StockCard>, totalElements: nat)

  /** GET /api/stockCards: the cards matching every non-empty parameter, in store order. */
  function ListCards(cards: seq<StockCard>, q: CardQuery): (r: CardListing)
    ensures r.content == Filter(cards, CardMatchesOf(q))
    ensures r.totalElements == |r.content|
  {
    var filtered := Refine(FacilityProgramChain(cards, q), Given(q.orderableId), ByOrderable(q));
    FacilityProgramChainIsConjunction(cards, q);
    RefineStep(cards, c => (Given(q.facilityId) ==> ByFacility(q)(c)) && (Given(q.programId) ==> ByProgram(q)(c)),
      Given(q.orderableId), ByOrderable(q), CardMatchesOf(q));
    CardListing(filtered, |filtered|)
  }

  /** GET /api/stockCards/<id>: the first card with that id, or 404. */
  function GetCard(cards: seq<StockCard>, id: string): (r: Result<StockCard, HttpError>)
    ensures r.Ok? <==> exists j :: 0 <= j < |cards| && cards[j].id == id
    ensures r.Ok? ==> r.value.id == id
    ensures r.Ok? ==> exists j :: 0 <= j < |cards| && cards[j] == r.value && forall k :: 0 <= k < j ==> cards[k].id != id
    ensures r.Err? ==> r.error == CardNotFound
  {
    match FindFirst(cards, (c: StockCard) => c.id == id)
    case None => Err(CardNotFound)
    case Some(i) => Ok(cards[i])
  }

  /** `{stockCard: {id}, orderable: {id}, stockOnHand}`. */
  datatype Summary = Summary(stockCardId: string, orderableId: string, stockOnHand: int)

  function SummaryOf(c: StockCard): Summary {
    Summary(c.id, c.orderableId, c.stockOnHand)
  }

  datatype SummaryListing = SummaryListing(content: seq<Summary>, totalElements: nat)

  /** GET /api/stockCardSummaries: one summary per card the facility and program
      parameters select, in the order of the card list for the same parameters. */
  function Summaries(cards: seq<StockCard>, facilityId: Option<string>, programId: Option<string>): (r: SummaryListing)
    ensures var selected := ListCards(cards, CardQuery(facilityId, programId, None)).content;
      && |r.content| == |selected| == r.totalElements
      && forall i :: 0 <= i < |selected| ==>
           r.content[i].stockCardId == selected[i].id
           && r.content[i].orderableId == selected[i].orderableId
           && r.content[i].stockOnHand == selected[i].stockOnHand
  {
    var q := CardQuery(facilityId, programId, None);
    var filtered := FacilityProgramChain(cards, q);
    FacilityProgramChainIsConjunction(cards, q);
    FilterExt(cards, c => (Given(q.facilityId) ==> ByFacility(q)(c)) && (Given(q.programId) ==> ByProgram(q)(c)),
      CardMatchesOf(q));
    var summaries := seq(|filtered|, i requires 0 <= i < |filtered| => SummaryOf(filtered[i]));
    SummaryListing(summaries, |summaries|)
  }

  // ---------------------------------------------------------------------
  // The adjustment reasons
  // ---------------------------------------------------------------------

  datatype ReasonType = Credit | Debit

  function ReasonTypeName(t: ReasonType): string {
    match t
    case Credit => "CREDIT"
    case Debit => "DEBIT"
  }

  datatype Reason = Reason(id: string, name: string, reasonType: ReasonType)

  datatype ReasonListing = ReasonListing(content: seq<Reason>, totalElements: nat)

  /** GET /api/stockCardLineItemReasons: the fixed table of six reasons, two credits
      and four debits, with distinct ids. */
  function LineItemReasons(): (r: ReasonListing)
    ensures |r.content| == r.totalElements == 6
    ensures forall i, j :: 0 <= i < j < |r.content| ==> r.content[i].id != r.content[j].id
    ensures |Filter(r.content, (x: Reason) => x.reasonType == Credit)| == 2
    ensures |Filter(r.content, (x: Reason) => x.reasonType == Debit)| == 4
  {
    var reasons := [
      Reason("reason-receive", "Receipt", Credit),
      Reason("reason-issue", "Issue", Debit),
      Reason("reason-adjustment-pos", "Positive Adjustment", Credit),
      Reason("reason-adjustment-neg", "Negative Adjustment", Debit),
      Reason("reason-expired", "Expired", Debit),
      Reason("reason-damaged", "Damaged", Debit)
    ];
    ReasonListing(reasons, |reasons|)
  }

  // ---------------------------------------------------------------------
  // Stock events
  // ---------------------------------------------------------------------

  /** One submitted line item; each field is `item.get(...)`, None when absent. */
  datatype EventLine = EventLine(
    orderableId: Option<Json>,
    quantity: Option<int>,
    reasonId: Option<Json>,
    occurredDate: Option<Json>,
    sourceId: Option<Json>,
    destinationId: Option<Json>)

  /** A POST /api/stockEvents body: its `lineItems` entry and every other key. */
  datatype EventBody = EventBody(lineItems: Option<seq<EventLine>>, otherFields: Object)

  /** The two parts of a body do not overlap: `lineItems` lives only in its own field. */
  predicate WellFormedBody(b: EventBody) {
    "lineItems" !in b.otherFields
  }

  /** `not event_data` for a parsed object: no keys at all. */
  predicate IsEmptyBody(b: EventBody) {
    b.lineItems.None? && b.otherFields == map[]
  }

  /** `event_data.get('lineItems', [])`. */
  function Lines(b: EventBody): seq<EventLine> {
    if b.lineItems.Some? then b.lineItems.value else []
  }

  /** `item.get('quantity', 0)`. */
  function Quantity(l: EventLine): int {
    if l.quantity.Some? then l.quantity.value else 0
  }

  /** `reason_id or 'ADJUSTMENT'`: the supplied reason when truthy. */
  function ReasonOf(l: EventLine): (r: Json)
    ensures Truthy(r)
  {
    if l.reasonId.Some? && Truthy(l.reasonId.value) then l.reasonId.value else JStr("ADJUSTMENT")
  }

  /** The card a line item is posted to: the first whose orderable id it names. */
  predicate Serves(l: EventLine, c: StockCard) {
    l.orderableId == Some(JStr(c.orderableId))
  }

  function TargetCard(cards: seq<StockCard>, l: EventLine): Option<nat> {
    FindFirst(cards, (c: StockCard) => Serves(l, c))
  }

  /** The movement a line item records, with a fresh id and today's date by default. */
  function NewMovement(l: EventLine, id: string, today: string): (m: Movement)
    ensures m.quantity == Quantity(l) && m.reason == ReasonOf(l) && m.id == id
    ensures l.occurredDate.Some? ==> m.occurredDate == l.occurredDate.value
    ensures l.occurredDate.None? ==> m.occurredDate == JStr(today)
    ensures m.source == OrNull(l.sourceId) && m.destination == OrNull(l.destinationId)
  {
    Movement(
      id,
      if l.occurredDate.Some? then l.occurredDate.value else JStr(today),
      Quantity(l),
      ReasonOf(l),
      OrNull(l.sourceId),
      OrNull(l.destinationId))
  }

  /** The movements the first n line items record on card j, in submission order;
      line k gets movement id freshId(k) and, when it names no date, the clock
      reading today(k) taken for that line. */
  function Recorded(cards: seq<StockCard>, lines: seq<EventLine>, n: nat, j: nat, freshId: nat -> string, today: nat -> string): seq<Movement>
    requires n <= |lines|
  {
    if n == 0 then []
    else Recorded(cards, lines, n - 1, j, freshId, today)
         + (if TargetCard(cards, lines[n - 1]) == Some(j) then [NewMovement(lines[n - 1], freshId(n - 1), today(n - 1))] else [])
  }

  /** The sum of the quantities of the first n line items posted to card j. */
  function Applied(cards: seq<StockCard>, lines: seq<EventLine>, n: nat, j: nat): int
    requires n <= |lines|
  {
    if n == 0 then 0
    else Applied(cards, lines, n - 1, j) + (if TargetCard(cards, lines[n - 1]) == Some(j) then Quantity(lines[n - 1]) else 0)
  }

  /** Card j after the first n line items of an event against `cards`. */
  function Posted(cards: seq<StockCard>, lines: seq<EventLine>, n: nat, j: nat, freshId: nat -> string, today: nat -> string): StockCard
    requires n <= |lines| && j < |cards|
  {
    cards[j].(lineItems := cards[j].lineItems + Recorded(cards, lines, n, j, freshId, today),
              stockOnHand := cards[j].stockOnHand + Applied(cards, lines, n, j))
  }

  function SumQuantities(ms: seq<Movement>): int {
    if ms == [] then 0 else SumQuantities(ms[..|ms| - 1]) + ms[|ms| - 1].quantity
  }

  lemma {:induction false} SumQuantitiesAppend(a: seq<Movement>, b: seq<Movement>)
    ensures SumQuantities(a + b) == SumQuantities(a) + SumQuantities(b)
    decreases |b|
  {
    if b != [] {
      assert (a + b)[..|a + b| - 1] == a + b[..|b| - 1];
      SumQuantitiesAppend(a, b[..|b| - 1]);
    } else {
      assert a + b == a;
    }
  }

  /** The balance change of a card is the total of the movements the event appended to it. */
  lemma {:induction false} AppliedIsRecordedTotal(cards: seq<StockCard>, lines: seq<EventLine>, n: nat, j: nat, freshId: nat -> string, today: nat -> string)
    requires n <= |lines|
    ensures SumQuantities(Recorded(cards, lines, n, j, freshId, today)) == Applied(cards, lines, n, j)
  {
    if n > 0 {
      AppliedIsRecordedTotal(cards, lines, n - 1, j, freshId, today);
      var tail := if TargetCard(cards, lines[n - 1]) == Some(j) then [NewMovement(lines[n - 1], freshId(n - 1), today(n - 1))] else [];
      SumQuantitiesAppend(Recorded(cards, lines, n - 1, j, freshId, today), tail);
      assert tail != [] ==> tail[..0] == [];
    }
  }

  /** "Balance minus the total of the movement history" is kept by every event: a
      card whose balance equals its history still does afterwards. */
  lemma PostingKeepsDrift(cards: seq<StockCard>, lines: seq<EventLine>, j: nat, freshId: nat -> string, today: nat -> string)
    requires j < |cards|
    ensures var c := Posted(cards, lines, |lines|, j, freshId, today);
      c.stockOnHand - SumQuantities(c.lineItems) == cards[j].stockOnHand - SumQuantities(cards[j].lineItems)
  {
    AppliedIsRecordedTotal(cards, lines, |lines|, j, freshId, today);
    SumQuantitiesAppend(cards[j].lineItems, Recorded(cards, lines, |lines|, j, freshId, today));
  }

  /** The number of movements appended to card j is the number of line items posted to it. */
  lemma {:induction false} RecordedCount(cards: seq<StockCard>, lines: seq<EventLine>, n: nat, j: nat, freshId: nat -> string, today: nat -> string)
    requires n <= |lines|
    ensures |Recorded(cards, lines, n, j, freshId, today)| == |Filter(lines[..n], (l: EventLine) => TargetCard(cards, l) == Some(j))|
  {
    if n > 0 {
      RecordedCount(cards, lines, n - 1, j, freshId, today);
      assert lines[..n] == lines[..n - 1] + [lines[n - 1]];
      FilterAppend(lines[..n - 1], [lines[n - 1]], (l: EventLine) => TargetCard(cards, l) == Some(j));
    }
  }

  /** A card that no line item names is left exactly as it was. */
  lemma {:induction false} UnservedCardUnchanged(cards: seq<StockCard>, lines: seq<EventLine>, n: nat, j: nat, freshId: nat -> string, today: nat -> string)
    requires n <= |lines| && j < |cards|
    requires forall k :: 0 <= k < n ==> TargetCard(cards, lines[k]) != Some(j)
    ensures Posted(cards, lines, n, j, freshId, today) == cards[j]
  {
    if n > 0 {
      UnservedCardUnchanged(cards, lines, n - 1, j, freshId, today);
    }
  }

  /** Where a line item goes depends on its orderable id alone. */
  lemma TargetByOrderable(cards: seq<StockCard>, l: EventLine, m: EventLine)
    requires l.orderableId == m.orderableId
    ensures TargetCard(cards, l) == TargetCard(cards, m)
  {
    FindFirstAgree(cards, (c: StockCard) => Serves(l, c), cards, (c: StockCard) => Serves(m, c));
  }

  /** The reason never enters the arithmetic: events that differ only in their
      reasons leave the same balances. */
  lemma {:induction false} ReasonDoesNotAffectBalance(cards: seq<StockCard>, lines: seq<EventLine>, other: seq<EventLine>, n: nat, j: nat)
    requires n <= |lines| == |other|
    requires forall k :: 0 <= k < |lines| ==>
      other[k].orderableId == lines[k].orderableId && other[k].quantity == lines[k].quantity
    ensures Applied(cards, lines, n, j) == Applied(cards, other, n, j)
  {
    if n > 0 {
      ReasonDoesNotAffectBalance(cards, lines, other, n - 1, j);
      var l, m := lines[n - 1], other[n - 1];
      TargetByOrderable(cards, l, m);
      assert Quantity(l) == Quantity(m);
      assert Applied(cards, lines, n, j) == Applied(cards, lines, n - 1, j) + (if TargetCard(cards, l) == Some(j) then Quantity(l) else 0);
      assert Applied(cards, other, n, j) == Applied(cards, other, n - 1, j) + (if TargetCard(cards, m) == Some(j) then Quantity(m) else 0);
    }
  }

  /** One more line item: card j gains that line's movement and quantity when the
      line is posted to it, and is otherwise as before. */
  lemma PostedStep(cards: seq<StockCard>, lines: seq<EventLine>, k: nat, j: nat, freshId: nat -> string, today: nat -> string)
    requires k < |lines| && j < |cards|
    ensures var c := Posted(cards, lines, k, j, freshId, today);
      Posted(cards, lines, k + 1, j, freshId, today) ==
        if TargetCard(cards, lines[k]) == Some(j)
        then c.(lineItems := c.lineItems + [NewMovement(lines[k], freshId(k), today(k))],
                stockOnHand := c.stockOnHand + Quantity(lines[k]))
        else c
  {
    var before := Recorded(cards, lines, k, j, freshId, today);
    if TargetCard(cards, lines[k]) == Some(j) {
      assert cards[j].lineItems + (before + [NewMovement(lines[k], freshId(k), today(k))])
          == (cards[j].lineItems + before) + [NewMovement(lines[k], freshId(k), today(k))];
    } else {
      assert before + [] == before;
    }
  }

  /** The cards' identifying fields, which decide where each line item goes. */
  predicate SameKeys(a: seq<StockCard>, b: seq<StockCard>) {
    && |a| == |b|
    && forall j :: 0 <= j < |a| ==>
         a[j].id == b[j].id && a[j].facilityId == b[j].facilityId
         && a[j].programId == b[j].programId && a[j].orderableId == b[j].orderableId
  }

  lemma TargetByKeys(a: seq<StockCard>, b: seq<StockCard>, l: EventLine)
    requires SameKeys(a, b)
    ensures TargetCard(a, l) == TargetCard(b, l)
  {
    FindFirstAgree(a, (c: StockCard) => Serves(l, c), b, (c: StockCard) => Serves(l, c));
  }

  /** The cards after posting one line item with movement id `id`. */
  function PostLine(cards: seq<StockCard>, l: EventLine, id: string, today: string): seq<StockCard> {
    match TargetCard(cards, l)
    case None => cards
    case Some(i) =>
      cards[i := cards[i].(lineItems := cards[i].lineItems + [NewMovement(l, id, today)],
                           stockOnHand := cards[i].stockOnHand + Quantity(l))]
  }

  /** Posting line k to the cards reached after k line items reaches the state after k + 1. */
  lemma PostLineAdvances(start: seq<StockCard>, cur: seq<StockCard>, lines: seq<EventLine>, k: nat, freshId: nat -> string, today: nat -> string)
    requires k < |lines| && |cur| == |start|
    requires forall j :: 0 <= j < |cur| ==> cur[j] == Posted(start, lines, k, j, freshId, today)
    ensures var next := PostLine(cur, lines[k], freshId(k), today(k));
      |next| == |start| && forall j :: 0 <= j < |next| ==> next[j] == Posted(start, lines, k + 1, j, freshId, today)
  {
    assert SameKeys(cur, start);
    TargetByKeys(cur, start, lines[k]);
    forall j | 0 <= j < |cur|
      ensures PostLine(cur, lines[k], freshId(k), today(k))[j] == Posted(start, lines, k + 1, j, freshId, today)
    {
      PostedStep(start, lines, k, j, freshId, today);
    }
  }

  datatype EventAck = EventAck(id: string, status: string, lineItems: nat)

  const BodyRequired := HttpError(400, "Request body required")

  class StockLedger {
    var cards: seq<StockCard>

    constructor (seed: seq<StockCard>)
      ensures cards == seed
    {
      cards := seed;
    }

    /** POST /api/stockEvents. Each line item is posted to the first card for its
        orderable: one movement appended, the balance moved by its quantity. Line
        items with no card are skipped and still counted in the acknowledgement. */
    method RecordEvent(body: Option<EventBody>, eventId: string, freshId: nat -> string, today: nat -> string)
      returns (r: Result<EventAck, HttpError>)
      requires body.Some? ==> WellFormedBody(body.value)
      modifies this
      ensures body.None? || IsEmptyBody(body.value) ==> r == Err(BodyRequired) && cards == old(cards)
      ensures body.Some? && !IsEmptyBody(body.value) ==>
        var lines := Lines(body.value);
        && r == Ok(EventAck(eventId, "PROCESSED", |lines|))
        && |cards| == |old(cards)|
        && forall j :: 0 <= j < |cards| ==> cards[j] == Posted(old(cards), lines, |lines|, j, freshId, today)
    {
      if body.None? || IsEmptyBody(body.value) {
        return Err(BodyRequired);
      }
      var lines := Lines(body.value);
      ghost var start := cards;
      for k := 0 to |lines|
        invariant |cards| == |start|
        invariant forall j :: 0 <= j < |cards| ==> cards[j] == Posted(start, lines, k, j, freshId, today)
      {
        ghost var before := cards;
        var target := TargetCard(cards, lines[k]);
        if target.Some? {
          var i := target.value;
          var m := NewMovement(lines[k], freshId(k), today(k));
          cards := cards[i := cards[i].(lineItems := cards[i].lineItems + [m], stockOnHand := cards[i].stockOnHand + Quantity(lines[k]))];
        }
        assert cards == PostLine(before, lines[k], freshId(k), today(k));
        PostLineAdvances(start, before, lines, k, freshId, today);
      }
      r := Ok(EventAck(eventId, "PROCESSED", |lines|));
    }
  }
}
