/** What the finished tables say of materials ordered on demand: every reservation is served through its
    requisition and order, and what its receipts leave over its issues is what the plant holds
    (data-generator/generate.py, `build_oar_chain`). */
module OnDemandStock {
  import opened Wrappers
  import opened Ledger
  import opened Sequences
  import opened Additions
  import opened Balances
  import opened Arithmetic
  import opened Calendar
  import opened Rounding
  import opened OarChains
  import R = Repairs

  /** What the issues naming a reservation add up to. */
  function IssueTotal(movements: seq<Movement>, rsnum: nat): int {
    if movements == [] then 0
    else IssueTotal(Front(movements), rsnum) +
         if Last(movements).rsnum == Some(rsnum) && !Last(movements).debit then Last(movements).menge else 0
  }

  /** The order that a reservation's requisition names. */
  function OrderFor(res: Reservation, requisitions: seq<Requisition>): Option<nat> {
    if res.banfn.Some? && 0 <= res.banfn.value - PR_START < |requisitions|
    then requisitions[res.banfn.value - PR_START].ebeln else None
  }

  /** What that order's goods receipts add up to. */
  function ReceivedFor(res: Reservation, requisitions: seq<Requisition>, receipts: seq<Receipt>): int {
    match OrderFor(res, requisitions) case None => 0 case Some(ebeln) => ReceiptTotal(receipts, ebeln)
  }

  /** issued <= received <= reserved, and what is issued is what the issues posted for it add up to. */
  ghost predicate Served(res: Reservation, r: Rows) {
    && res.banfn.Some?
    && 0 <= res.enmng <= ReceivedFor(res, r.requisitions, r.receipts) <= res.bdmng
    && res.enmng == IssueTotal(r.movements, res.rsnum)
  }

  /** Over the reservations of a material-plant, what was received less what was issued. */
  function StockLeft(key: PlantKey, reservations: seq<Reservation>, requisitions: seq<Requisition>,
                     receipts: seq<Receipt>): int {
    if reservations == [] then 0
    else
      var res := Last(reservations);
      StockLeft(key, Front(reservations), requisitions, receipts) +
      if res.key == key then ReceivedFor(res, requisitions, receipts) - res.enmng else 0
  }

  function CountFor(key: PlantKey, reservations: seq<Reservation>): nat {
    if reservations == [] then 0 else CountFor(key, Front(reservations)) + if Last(reservations).key == key then 1 else 0
  }

  /** Every reservation of the material-plant is served, and it holds what they leave. */
  ghost predicate Settled(key: PlantKey, onHand: int, r: Rows) {
    && (forall i: nat | i < |r.reservations| && r.reservations[i].key == key :: Served(r.reservations[i], r))
    && onHand == StockLeft(key, r.reservations, r.requisitions, r.receipts)
  }

  // --- documents added later ------------------------------------------------------------

  lemma {:induction false} IssueTotalKept(a: seq<Movement>, b: seq<Movement>, key: PlantKey, from: nat, rsnum: nat)
    requires MovementsFrom(a, b, key, from) && rsnum < from
    ensures IssueTotal(b, rsnum) == IssueTotal(a, rsnum)
  {
    if |a| < |b| {
      IssueTotalKept(a, Front(b), key, from, rsnum);
    } else {
      assert a == b;
    }
  }

  lemma LinksInRange(r: Rows, i: nat)
    requires WellFormed(r) && i < |r.reservations|
    ensures r.reservations[i].rsnum == RES_START + i
    ensures r.reservations[i].banfn.Some? ==> 0 <= r.reservations[i].banfn.value - PR_START < |r.requisitions|
    ensures OrderFor(r.reservations[i], r.requisitions).Some? ==>
              OrderFor(r.reservations[i], r.requisitions).value < PO_START + |r.orders|
  {
    hide OrdersAgree, ReceiptsMatch, HistoryAddsUp, MovementsFit, KeysKnown, HeadersNumbered, DemandLinked, ItemLinked;
    assert ReservationLinked(i, r.reservations[i], r.requisitions);
    if OrderFor(r.reservations[i], r.requisitions).Some? {
      var j := r.reservations[i].banfn.value - PR_START;
      assert RequisitionLinked(j, r.requisitions[j], r.orderItems);
    }
  }

  /** What a reservation was served does not change when documents are added. */
  lemma ServedKept(r: Rows, t: Rows, key: PlantKey, i: nat)
    requires WellFormed(r) && AddsFor(r, t, key) && i < |r.reservations|
    ensures var res := r.reservations[i];
            && t.reservations[i] == res
            && OrderFor(res, t.requisitions) == OrderFor(res, r.requisitions)
            && ReceivedFor(res, t.requisitions, t.receipts) == ReceivedFor(res, r.requisitions, r.receipts)
            && IssueTotal(t.movements, res.rsnum) == IssueTotal(r.movements, res.rsnum)
  {
    hide WellFormed;
    LinksInRange(r, i);
    var res := r.reservations[i];
    IssueTotalKept(r.movements, t.movements, key, RES_START + |r.reservations|, res.rsnum);
    assert OrderFor(res, t.requisitions) == OrderFor(res, r.requisitions);
    if OrderFor(res, r.requisitions).Some? {
      ReceiptTotalKept(r.receipts, t.receipts, PO_START + |r.orders|, OrderFor(res, r.requisitions).value);
    }
  }

  lemma {:induction false} StockLeftKept(r: Rows, t: Rows, key: PlantKey, other: PlantKey, n: nat)
    requires WellFormed(r) && AddsFor(r, t, key) && n <= |r.reservations|
    ensures StockLeft(other, r.reservations[..n], t.requisitions, t.receipts) ==
            StockLeft(other, r.reservations[..n], r.requisitions, r.receipts)
  {
    hide WellFormed, AddsFor, ReceivedFor;
    if n > 0 {
      StockLeftKept(r, t, key, other, n - 1);
      ServedKept(r, t, key, n - 1);
      assert Front(r.reservations[..n]) == r.reservations[..n - 1];
    }
  }

  lemma {:induction false} OthersLeft(a: seq<Reservation>, b: seq<Reservation>, key: PlantKey, other: PlantKey,
                                      requisitions: seq<Requisition>, receipts: seq<Receipt>)
    requires ReservationsFor(a, b, key) && other != key
    ensures StockLeft(other, b, requisitions, receipts) == StockLeft(other, a, requisitions, receipts)
    ensures CountFor(other, b) == CountFor(other, a)
  {
    if |a| < |b| {
      OthersLeft(a, Front(b), key, other, requisitions, receipts);
    } else {
      assert a == b;
    }
  }

  /** Documents added for one material-plant leave every other as settled as it was. */
  lemma SettledKept(r: Rows, t: Rows, key: PlantKey, other: PlantKey, onHand: int)
    requires WellFormed(r) && AddsFor(r, t, key) && other != key && Settled(other, onHand, r)
    ensures Settled(other, onHand, t) && CountFor(other, t.reservations) == CountFor(other, r.reservations)
  {
    hide WellFormed, ReceivedFor;
    forall i: nat | i < |t.reservations| && t.reservations[i].key == other ensures Served(t.reservations[i], t) {
      assert i < |r.reservations|;
      ServedKept(r, t, key, i);
      assert Served(r.reservations[i], r);
    }
    StockLeftKept(r, t, key, other, |r.reservations|);
    assert r.reservations[..|r.reservations|] == r.reservations;
    OthersLeft(r.reservations, t.reservations, key, other, t.requisitions, t.receipts);
  }

  lemma SettledIgnores(r: Rows, t: Rows, key: PlantKey, onHand: int)
    requires Settled(key, onHand, r) && t.reservations == r.reservations && t.requisitions == r.requisitions
    requires t.receipts == r.receipts && t.movements == r.movements
    ensures Settled(key, onHand, t)
  {
    forall i: nat | i < |t.reservations| && t.reservations[i].key == key ensures Served(t.reservations[i], t) {
      assert Served(r.reservations[i], r);
    }
  }

  // --- one chain ------------------------------------------------------------------------------

  /** What an outcome receives and issues of what was asked for. */
  ghost predicate AsDrawn(c: ChainChoice, received: int, issued: int) {
    match c.outcome
    case OpenReservation => received == 0 == issued
    case ReceivedNotUsed => received == c.quantity && issued == 0
    case UseOverdue => received == c.quantity && issued == 0
    case PartialReceipt => IsPart(received, c.quantity, c.share) && issued == received
    case PartialIssue => received == c.quantity && IsPart(issued, received, 0.5)
    case _ => received == c.quantity == issued
  }

  /** What reservation `i`, the order of its requisition and its issues add up to is the chain's. */
  ghost predicate ChainCounted(r: Rows, i: nat, key: PlantKey, c: ChainChoice) {
    && i < |r.reservations| && r.reservations[i].key == key && r.reservations[i].banfn.Some?
    && r.reservations[i].bdmng == c.quantity && r.reservations[i].enmng == c.IssuedQuantity()
    && (OrderFor(r.reservations[i], r.requisitions) == None <==> c.outcome == OpenReservation)
    && ReceivedFor(r.reservations[i], r.requisitions, r.receipts) == c.ReceivedQuantity()
    && IssueTotal(r.movements, r.reservations[i].rsnum) == c.IssuedQuantity()
  }

  ghost predicate HasReceipt(movements: seq<Movement>, key: PlantKey, order: nat, day: int, menge: int) {
    exists m :: m in movements && m.key == key && m.bwart == GrPo && m.debit && m.menge == menge && m.budat == day &&
                m.ebeln == Some(PO_START + order)
  }

  ghost predicate HasIssue(movements: seq<Movement>, key: PlantKey, reservation: nat, day: int, menge: int) {
    exists m :: m in movements && m.key == key && m.bwart == GiOrder && !m.debit && m.menge == menge && m.budat == day &&
                m.rsnum == Some(RES_START + reservation)
  }

  /** Its rows, with their dates: reserved as long ago as was drawn on top of the lead time but within the
      window, requested and ordered as much later as was drawn, promised after the lead time, received as much
      off that as was drawn but after the order, and issued as much later as was drawn; nothing after the
      as-of date but the promise. */
  ghost predicate ChainDated(r: Rows, i: nat, key: PlantKey, lead: nat, c: ChainChoice, received: int, issued: int) {
    var requestedOn := Min(AS_OF, AS_OF - Min(lead + c.age, HISTORY_MONTHS * 30) + c.requestDelay);
    var orderedOn := Min(AS_OF, requestedOn + c.orderDelay);
    var receivedOn := Min(AS_OF, Max(orderedOn + lead + c.receiptShift, orderedOn + 1));
    && i < |r.reservations| && r.reservations[i].banfn.Some?
    && var j := r.reservations[i].banfn.value - PR_START;
       && 0 <= j < |r.requisitions|
       && r.reservations[i] == Reservation(RES_START + i, key, c.quantity, issued, Some(PR_START + j))
       && r.requisitions[j].(ebeln := None) == Requisition(PR_START + j, key, c.quantity, requestedOn, None, Some(RES_START + i))
       && (r.requisitions[j].ebeln == None <==> c.outcome == OpenReservation)
       && (c.outcome != OpenReservation ==>
             var o := r.requisitions[j].ebeln.value - PO_START;
             && 0 <= o < |r.orders| && o < |r.orderItems| && o < |r.schedules|
             && r.orders[o] == Order(PO_START + o, orderedOn)
             && r.orderItems[o].(elikz := false) == OrderItem(PO_START + o, key, c.quantity, false, Some(PR_START + j))
             && r.schedules[o].(wemng := 0) == Schedule(PO_START + o, orderedOn + lead, c.quantity, 0)
             && HasReceipt(r.movements, key, o, receivedOn, received)
             && (issued > 0 ==> HasIssue(r.movements, key, i, Min(AS_OF, receivedOn + c.issueDelay), issued)))
  }

  /** Reservation `i` with its requisition, order, receipt and issue is the chain `c`. */
  ghost predicate ChainWritten(r: Rows, i: nat, key: PlantKey, lead: nat, c: ChainChoice) {
    && ChainCounted(r, i, key, c) && AsDrawn(c, c.ReceivedQuantity(), c.IssuedQuantity())
    && ChainDated(r, i, key, lead, c, c.ReceivedQuantity(), c.IssuedQuantity())
  }

  lemma WrittenIsServed(r: Rows, i: nat, key: PlantKey, c: ChainChoice)
    requires ChainCounted(r, i, key, c) && c.Valid()
    ensures Served(r.reservations[i], r)
  {
    QuantitiesNest(c);
  }

  lemma WrittenKept(r: Rows, t: Rows, key: PlantKey, i: nat, of: PlantKey, lead: nat, c: ChainChoice)
    requires WellFormed(r) && AddsFor(r, t, key) && ChainWritten(r, i, of, lead, c)
    ensures ChainWritten(t, i, of, lead, c)
  {
    hide WellFormed, AsDrawn, ChainDated;
    ServedKept(r, t, key, i);
    DatedKept(r, t, key, i, of, lead, c, c.ReceivedQuantity(), c.IssuedQuantity());
  }

  lemma DatedKept(r: Rows, t: Rows, key: PlantKey, i: nat, of: PlantKey, lead: nat, c: ChainChoice, received: int, issued: int)
    requires AddsFor(r, t, key) && ChainDated(r, i, of, lead, c, received, issued)
    ensures ChainDated(t, i, of, lead, c, received, issued)
  {
    StillThere(r.movements, t.movements, of);
    hide HasReceipt, HasIssue;
  }

  lemma StillThere(a: seq<Movement>, b: seq<Movement>, key: PlantKey)
    requires a <= b
    ensures forall order, day, menge | HasReceipt(a, key, order, day, menge) :: HasReceipt(b, key, order, day, menge)
    ensures forall i, day, menge | HasIssue(a, key, i, day, menge) :: HasIssue(b, key, i, day, menge)
  {
    forall m | m in a ensures m in b {
      var k :| 0 <= k < |a| && a[k] == m;
      assert b[k] == m;
    }
  }

  /** The chain's plant stays settled: it holds what the chain left on top of what it held. */
  lemma ChainStock(r: Rows, t: Rows, key: PlantKey, c: ChainChoice, onHand: int)
    requires WellFormed(r) && AddsFor(r, t, key) && |t.reservations| == |r.reservations| + 1
    requires ChainCounted(t, |r.reservations|, key, c) && c.Valid() && Settled(key, onHand, r)
    ensures Settled(key, onHand + c.ReceivedQuantity() - c.IssuedQuantity(), t)
    ensures CountFor(key, t.reservations) == CountFor(key, r.reservations) + 1
  {
    hide WellFormed, ReceivedFor;
    var n := |r.reservations|;
    WrittenIsServed(t, n, key, c);
    forall i: nat | i < |t.reservations| && t.reservations[i].key == key ensures Served(t.reservations[i], t) {
      if i < n {
        ServedKept(r, t, key, i);
        assert Served(r.reservations[i], r);
      }
    }
    StockLeftKept(r, t, key, key, n);
    assert r.reservations[..n] == r.reservations == Front(t.reservations);
  }

  // --- what the builders add ------------------------------------------------------------------

  lemma {:induction false} NothingIssued(movements: seq<Movement>, rsnum: nat)
    requires forall k | 0 <= k < |movements| :: movements[k].rsnum != Some(rsnum)
    ensures IssueTotal(movements, rsnum) == 0
  {
    if movements != [] {
      NothingIssued(Front(movements), rsnum);
    }
  }

  /** The next order has no receipt yet, and the next reservation no issue. */
  lemma NextUnused(r: Rows)
    requires WellFormed(r)
    ensures ReceiptTotal(r.receipts, PO_START + |r.orders|) == 0
    ensures IssueTotal(r.movements, RES_START + |r.reservations|) == 0
  {
    hide OrdersAgree, OrdersLinked, ReservationsLinked, HistoryAddsUp, KeysKnown, ReservationsNumbered, RequisitionsNumbered;
    R.NextNotReceived(r);
    forall k: nat | k < |r.movements| ensures r.movements[k].rsnum != Some(RES_START + |r.reservations|) {
      assert MovementFits(r.movements[k], |r.orders|, |r.reservations|);
    }
    NothingIssued(r.movements, RES_START + |r.reservations|);
  }

  lemma OneIssue(movements: seq<Movement>, m: Movement, rsnum: nat)
    ensures IssueTotal(movements + [m], rsnum) ==
            IssueTotal(movements, rsnum) + if m.rsnum == Some(rsnum) && !m.debit then m.menge else 0
  {
    assert Front(movements + [m]) == movements;
  }

  function ChainReceipts(key: PlantKey, lead: nat, r: Rows, c: ChainChoice): seq<Receipt> {
    if c.outcome == OpenReservation then []
    else [Receipt(r.nextPo, r.nextDoc, c.ReceivedOn(lead), c.ReceivedQuantity())]
  }

  function ChainIssues(key: PlantKey, lead: nat, r: Rows, c: ChainChoice): seq<Movement> {
    if c.outcome == OpenReservation then []
    else
      [Movement(r.nextDoc, GrPo, key, true, c.ReceivedQuantity(), c.ReceivedOn(lead), Some(r.nextPo), None)] +
      if c.IssuedQuantity() == 0 then []
      else [Movement(r.nextDoc + 1, GiOrder, key, false, c.IssuedQuantity(), c.IssuedOn(lead), None, Some(r.nextRes))]
  }

  /** A chain's rows, table by table. */
  lemma ChainRows(key: PlantKey, lead: nat, r: Rows, c: ChainChoice)
    requires c.Valid()
    ensures var t, open := Chain(key, lead, r, c), c.outcome == OpenReservation;
            && t.plants == r.plants
            && t.orders == r.orders + (if open then [] else [Order(r.nextPo, c.OrderedOn(lead))])
            && t.orderItems == r.orderItems + (if open then [] else [OrderItem(r.nextPo, key, c.quantity, false, Some(r.nextPr))])
            && t.schedules == r.schedules + (if open then [] else [Schedule(r.nextPo, c.PromisedFor(lead), c.quantity, 0)])
            && t.reservations == r.reservations + [Reservation(r.nextRes, key, c.quantity, c.IssuedQuantity(), Some(r.nextPr))]
            && t.requisitions == r.requisitions + [Requisition(r.nextPr, key, c.quantity, c.RequestedOn(lead),
                                                    if open then None else Some(r.nextPo), Some(r.nextRes))]
            && t.receipts == r.receipts + ChainReceipts(key, lead, r, c)
            && t.movements == r.movements + ChainIssues(key, lead, r, c)
  {
    UsedUnlessAwaited(c);
    hide ChainChoice.Valid, ChainChoice.RequestedOn, ChainChoice.OrderedOn, ChainChoice.PromisedFor;
    hide ChainChoice.ReceivedOn, ChainChoice.IssuedOn;
    hide ChainChoice.ReceivedQuantity;
  }

  lemma ChainTotals(key: PlantKey, lead: nat, r: Rows, c: ChainChoice)
    requires WellFormed(r) && c.Valid()
    ensures ReceiptTotal(r.receipts + ChainReceipts(key, lead, r, c), r.nextPo) == c.ReceivedQuantity()
    ensures IssueTotal(r.movements + ChainIssues(key, lead, r, c), r.nextRes) == c.IssuedQuantity()
  {
    hide WellFormed, ChainChoice.Valid, ChainChoice.ReceivedOn, ChainChoice.IssuedOn;
    NextUnused(r);
    SameLengths(r);
    UsedUnlessAwaited(c);
    var receipts, issues := ChainReceipts(key, lead, r, c), ChainIssues(key, lead, r, c);
    if c.outcome == OpenReservation {
      assert r.movements + [] == r.movements && r.receipts + [] == r.receipts;
    } else {
      R.OneMoreReceipt(r.receipts, receipts[0]);
      OneIssue(r.movements, issues[0], r.nextRes);
      if c.IssuedQuantity() > 0 {
        assert r.movements + issues == r.movements + [issues[0]] + [issues[1]];
        OneIssue(r.movements + [issues[0]], issues[1], r.nextRes);
      }
    }
  }

  lemma ChainAddsFor(key: PlantKey, lead: nat, r: Rows, c: ChainChoice)
    requires WellFormed(r) && c.Valid()
    ensures AddsFor(r, Chain(key, lead, r, c), key)
  {
    hide WellFormed, Chain, ChainChoice.Valid, ChainChoice.RequestedOn, ChainChoice.ReceivedOn, ChainChoice.IssuedOn;
    hide ChainChoice.ReceivedQuantity, ChainChoice.IssuedQuantity, ChainChoice.OrderedOn, ChainChoice.PromisedFor;
    SameLengths(r);
    ChainRows(key, lead, r, c);
  }

  lemma DrawnAs(c: ChainChoice)
    requires c.Valid()
    ensures AsDrawn(c, c.ReceivedQuantity(), c.IssuedQuantity())
  {
    PartWithin(c.quantity, c.share);
    PartWithin(c.quantity, 0.5);
    hide PartOf, IsPart;
  }

  lemma ChainIsDated(key: PlantKey, lead: nat, r: Rows, c: ChainChoice)
    requires WellFormed(r) && c.Valid()
    ensures ChainDated(Chain(key, lead, r, c), |r.reservations|, key, lead, c, c.ReceivedQuantity(), c.IssuedQuantity())
  {
    hide WellFormed, Chain, ChainChoice.Valid, ChainChoice.ReceivedQuantity, ChainChoice.IssuedQuantity, HasReceipt;
    hide HasIssue;
    SameLengths(r);
    ChainRows(key, lead, r, c);
    if c.outcome != OpenReservation {
      ChainHas(key, lead, r, c);
    }
  }

  lemma ChainHas(key: PlantKey, lead: nat, r: Rows, c: ChainChoice)
    requires WellFormed(r) && c.Valid() && c.outcome != OpenReservation
    ensures var ms := Chain(key, lead, r, c).movements;
            && HasReceipt(ms, key, |r.orders|, c.ReceivedOn(lead), c.ReceivedQuantity())
            && (c.IssuedQuantity() > 0 ==> HasIssue(ms, key, |r.reservations|, c.IssuedOn(lead), c.IssuedQuantity()))
  {
    hide WellFormed, Chain, ChainChoice.Valid, ChainChoice.ReceivedOn, ChainChoice.IssuedOn;
    hide ChainChoice.ReceivedQuantity, ChainChoice.IssuedQuantity;
    SameLengths(r);
    ChainRows(key, lead, r, c);
    var ms, issues := Chain(key, lead, r, c).movements, ChainIssues(key, lead, r, c);
    assert issues[0] in ms;
    if c.IssuedQuantity() > 0 {
      assert issues[1] in ms;
    }
  }

  /** A chain adds one reservation and serves it as it was drawn. */
  lemma ChainAdds(key: PlantKey, lead: nat, r: Rows, c: ChainChoice)
    requires WellFormed(r) && c.Valid()
    ensures var t := Chain(key, lead, r, c);
            && AddsFor(r, t, key) && |t.reservations| == |r.reservations| + 1
            && ChainWritten(t, |r.reservations|, key, lead, c)
  {
    hide WellFormed, AddsFor, Chain, ChainChoice.Valid, ChainReceipts, ChainIssues, ReceiptTotal, IssueTotal;
    hide ChainChoice.RequestedOn;
    hide ChainChoice.OrderedOn, ChainChoice.PromisedFor, AsDrawn, ChainDated;
    SameLengths(r);
    QuantitiesNest(c);
    DrawnAs(c);
    ChainIsDated(key, lead, r, c);
    ChainAddsFor(key, lead, r, c);
    ChainRows(key, lead, r, c);
    ChainTotals(key, lead, r, c);
  }

  /** A repair case too adds documents for its material-plant only. */
  lemma RepairAdds(key: PlantKey, lead: nat, s: R.Position, c: R.RepairChoice)
    requires WellFormed(s.rows)
    ensures AddsFor(s.rows, R.Repair(key, lead, s, c).rows, key)
  {
    hide WellFormed, R.Repair, R.DatesOf, R.RepairChoice.ComesBack;
    SameLengths(s.rows);
    R.CaseRows(key, lead, s, c);
  }
}
