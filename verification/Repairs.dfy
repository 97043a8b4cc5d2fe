/** Repair cases of repairable materials (data-generator/generate.py, `build_repair_case` and
    `build_new_purchase_of_repairable`), as a function of what is drawn. */
module Repairs {
  import opened Arithmetic
  import opened Wrappers
  import opened Calendar
  import opened Ledger
  import opened Balances
  import opened Sequences
  import P = Planning
  import W = StockWalk

  datatype Outcome = InRepair | ExpectedBack | Overdue | Returned | BackInStock | NewPurchaseInstead

  const OVERDUE_GRACE_DAYS: nat := 7

  /** `due` is the distance drawn between the promised return and the as-of date; `age` and `wait`
      date a new purchase. */
  datatype RepairChoice = RepairChoice(
    outcome: Outcome, turnaround: nat, due: nat, orderLead: nat, removalLead: nat, returnDelay: nat, age: nat, wait: nat)
  {
    predicate Valid() {
      && 21 <= turnaround <= 95 && 1 <= orderLead <= 8 && 1 <= removalLead <= 6 && returnDelay <= 25
      && 20 <= age <= 300 && 2 <= wait <= 15
      && match outcome
         case InRepair => OVERDUE_GRACE_DAYS + 5 <= due <= turnaround
         case ExpectedBack => due <= OVERDUE_GRACE_DAYS
         case Overdue => 3 <= due <= 90
         case _ => 10 <= due <= 240
    }

    function PromisedFor(): int {
      match outcome
      case InRepair => AS_OF + due
      case ExpectedBack => AS_OF + due
      case Overdue => AS_OF - (OVERDUE_GRACE_DAYS + due)
      case _ => AS_OF - due
    }

    function OrderedOn(): int { PromisedFor() - turnaround }

    function RequestedOn(): int { OrderedOn() - orderLead }

    function RemovedOn(): int { RequestedOn() - removalLead }

    predicate ComesBack() { outcome == Returned || outcome == BackInStock }

    predicate LeavesStock() { outcome != NewPurchaseInstead }

    function ReturnedOn(): int { Min(AS_OF, PromisedFor() + returnDelay) }
  }

  /** A case is overdue exactly when its promised return lies more than the grace period back, unless the
      unit came back or never left. */
  lemma StagesFollowDates(c: RepairChoice)
    requires c.Valid()
    ensures c.RemovedOn() < c.RequestedOn() < c.OrderedOn() < c.PromisedFor() && c.OrderedOn() <= AS_OF
    ensures c.ComesBack() ==> c.OrderedOn() < c.ReturnedOn() <= AS_OF && c.PromisedFor() <= c.ReturnedOn()
    ensures c.LeavesStock() && !c.ComesBack() ==>
              (c.outcome == Overdue <==> c.PromisedFor() < AS_OF - OVERDUE_GRACE_DAYS) &&
              (c.outcome == ExpectedBack <==> AS_OF <= c.PromisedFor() <= AS_OF + OVERDUE_GRACE_DAYS)
  {
  }

  datatype Position = Position(rows: Rows, onHand: int, quality: int)

  /** Removal, repair order and, where the outcome has one, the return. */
  function Dispatched(key: PlantKey, s: Position, c: RepairChoice): Position {
    var removed := Posted(s.rows, key, RepairRemoval, 1, c.RemovedOn(), false, None, None);
    var requested := Requested(removed, key, 1, c.RequestedOn(), None);
    var ordered := Ordered(requested, key, 1, c.OrderedOn(), c.PromisedFor(), |s.rows.requisitions|);
    if !c.ComesBack() then s.(rows := ordered, onHand := s.onHand - 1)
    else
      var received := Received(ordered, key, |s.rows.poItems|, 1, c.ReturnedOn());
      if c.outcome == BackInStock then s.(rows := received) else Position(received, s.onHand - 1, s.quality + 1)
  }

  function Repair(key: PlantKey, lead: nat, s: Position, c: RepairChoice): Position {
    var reserved := Reserved(s.rows, key, 1);
    if c.outcome != NewPurchaseInstead then Dispatched(key, s.(rows := reserved), c)
    else
      var when := AS_OF - c.age;
      var aedat := Min(AS_OF, when + c.wait);
      s.(rows := Ordered(Requested(reserved, key, 1, when, None), key, 1, aedat, aedat + lead, |s.rows.requisitions|))
  }

  /** The case's own movements: the removal, and the return if there is one. */
  ghost predicate RepairMovements(own: seq<Movement>, key: PlantKey, c: RepairChoice) {
    && AllOf(own, key)
    && |own| == (if !c.LeavesStock() then 0 else if c.ComesBack() then 2 else 1)
    && (|own| >= 1 ==> !own[0].debit && own[0].menge == 1 && own[0].budat == c.RemovedOn())
    && (|own| == 2 ==> own[1].debit && own[1].menge == 1 && own[1].budat == c.ReturnedOn())
  }

  // --- the documents of a case ---------------------------------------------------------------

  /** Where a case's documents stand in their tables: the order with its item and schedule line is `item`. */
  datatype Places = Places(reservation: nat, requisition: nat, item: nat)

  /** When a case's documents are dated. */
  datatype Dates = Dates(removed: int, requested: int, ordered: int, promised: int, returned: int)

  /** A dispatch is dated back from the promised return, which lies ahead for a unit in repair or expected
      back, more than the grace period back for an overdue one, and back for a returned one. A new purchase is
      requested as long ago as was drawn, ordered later but not after the as-of date, and promised after the
      lead time. */
  ghost predicate AreDates(d: Dates, lead: nat, c: RepairChoice) {
    && (c.outcome == NewPurchaseInstead ==>
          d.requested == AS_OF - c.age && d.ordered == Min(AS_OF, d.requested + c.wait) && d.promised == d.ordered + lead)
    && (c.outcome != NewPurchaseInstead ==>
          && (c.outcome in {InRepair, ExpectedBack} ==> d.promised == AS_OF + c.due)
          && (c.outcome == Overdue ==> d.promised == AS_OF - OVERDUE_GRACE_DAYS - c.due)
          && (c.outcome in {Returned, BackInStock} ==> d.promised == AS_OF - c.due)
          && d.ordered == d.promised - c.turnaround && d.requested == d.ordered - c.orderLead
          && d.removed == d.requested - c.removalLead && d.returned == Min(AS_OF, d.promised + c.returnDelay))
  }

  /** The case's documents: one reservation, one requisition and one order with its item and schedule line, each
      for one unit, the requisition and the item naming each other. */
  ghost predicate CaseWritten(r: Rows, p: Places, key: PlantKey, d: Dates, cameBack: bool) {
    && p.reservation < |r.reservations| && p.requisition < |r.requisitions|
    && p.item < |r.orders| && p.item < |r.orderItems| && p.item < |r.schedules|
    && r.reservations[p.reservation] == Reservation(RES_START + p.reservation, key, 1, 0, None)
    && r.requisitions[p.requisition] == Requisition(PR_START + p.requisition, key, 1, d.requested, Some(PO_START + p.item), None)
    && r.orders[p.item] == Order(PO_START + p.item, d.ordered)
    && r.orderItems[p.item].(elikz := false) == OrderItem(PO_START + p.item, key, 1, false, Some(PR_START + p.requisition))
    && r.schedules[p.item].(wemng := 0) == Schedule(PO_START + p.item, d.promised, 1, 0)
    && ReceiptTotal(r.receipts, PO_START + p.item) == if cameBack then 1 else 0
  }

  /** And its movements: the unit removed, and received back against the order if it came back. */
  ghost predicate CasePosted(own: seq<Movement>, p: Places, key: PlantKey, d: Dates, c: RepairChoice) {
    match c.outcome
    case NewPurchaseInstead => own == []
    case Returned => |own| == 2 && IsRemoval(own[0], key, d.removed) && IsReturn(own[1], key, p.item, d.returned)
    case BackInStock => |own| == 2 && IsRemoval(own[0], key, d.removed) && IsReturn(own[1], key, p.item, d.returned)
    case _ => |own| == 1 && IsRemoval(own[0], key, d.removed)
  }

  ghost predicate IsRemoval(m: Movement, key: PlantKey, day: int) {
    m.(mblnr := 0) == Movement(0, RepairRemoval, key, false, 1, day, None, None)
  }

  ghost predicate IsReturn(m: Movement, key: PlantKey, item: nat, day: int) {
    m.(mblnr := 0) == Movement(0, GrPo, key, true, 1, day, Some(PO_START + item), None)
  }

  function DatesOf(lead: nat, c: RepairChoice): Dates {
    if c.outcome == NewPurchaseInstead then
      var aedat := Min(AS_OF, AS_OF - c.age + c.wait);
      Dates(0, AS_OF - c.age, aedat, aedat + lead, 0)
    else Dates(c.RemovedOn(), c.RequestedOn(), c.OrderedOn(), c.PromisedFor(), c.ReturnedOn())
  }

  lemma DatesAre(lead: nat, c: RepairChoice)
    ensures AreDates(DatesOf(lead, c), lead, c)
  {
  }

  /** Whatever the outcome, a case adds one reservation, one requisition and one order with its item and schedule
      line, and nothing else but its movements. */
  lemma CaseRows(key: PlantKey, lead: nat, s: Position, c: RepairChoice)
    requires |s.rows.orders| == |s.rows.orderItems| == |s.rows.schedules| == |s.rows.poItems|
    ensures var r, t, d := s.rows, Repair(key, lead, s, c).rows, DatesOf(lead, c);
            && t.plants == r.plants
            && t.reservations == r.reservations + [Reservation(r.nextRes, key, 1, 0, None)]
            && t.requisitions == r.requisitions + [Requisition(r.nextPr, key, 1, d.requested, Some(r.nextPo), None)]
            && t.orders == r.orders + [Order(r.nextPo, d.ordered)]
            && t.orderItems == r.orderItems + [OrderItem(r.nextPo, key, 1, false, Some(r.nextPr))]
            && t.schedules == r.schedules + [Schedule(r.nextPo, d.promised, 1, 0)]
            && t.receipts == r.receipts + (if c.ComesBack() then [Receipt(r.nextPo, r.nextDoc + 1, d.returned, 1)] else [])
            && t.movements == r.movements + CaseMovements(key, r, d, c)
  {
    hide RepairChoice.PromisedFor, RepairChoice.OrderedOn, RepairChoice.RequestedOn, RepairChoice.RemovedOn;
    hide RepairChoice.ReturnedOn;
  }

  function CaseMovements(key: PlantKey, r: Rows, d: Dates, c: RepairChoice): seq<Movement> {
    if c.outcome == NewPurchaseInstead then []
    else [Movement(r.nextDoc, RepairRemoval, key, false, 1, d.removed, None, None)] +
         if c.ComesBack() then [Movement(r.nextDoc + 1, GrPo, key, true, 1, d.returned, Some(r.nextPo), None)] else []
  }

  /** The next order has no receipt yet. */
  lemma NextNotReceived(r: Rows)
    requires WellFormed(r)
    ensures ReceiptTotal(r.receipts, PO_START + |r.orders|) == 0
  {
    hide OrdersAgree, OrdersLinked, ReservationsLinked, HistoryAddsUp, KeysKnown, ReservationsNumbered;
    hide RequisitionsNumbered, MovementsFit;
    SameLengths(r);
    forall k: nat | k < |r.receipts| ensures r.receipts[k].ebeln != PO_START + |r.orders| {
      assert ReceiptFits(r.receipts[k], r.poItems, r.movements);
    }
    NothingReceived(r.receipts, PO_START + |r.orders|);
  }

  lemma CaseIsWritten(key: PlantKey, lead: nat, s: Position, c: RepairChoice)
    requires WellFormed(s.rows)
    ensures var r, t, d := s.rows, Repair(key, lead, s, c).rows, DatesOf(lead, c);
            var p := Places(|r.reservations|, |r.requisitions|, |r.orders|);
            CaseWritten(t, p, key, d, c.ComesBack()) && CasePosted(t.movements[|r.movements|..], p, key, d, c)
  {
    hide WellFormed, DatesOf, Repair, ReceiptTotal;
    SameLengths(s.rows);
    NextNotReceived(s.rows);
    CaseRows(key, lead, s, c);
    var r, t, d := s.rows, Repair(key, lead, s, c).rows, DatesOf(lead, c);
    assert t.movements[|r.movements|..] == CaseMovements(key, r, d, c);
    if c.ComesBack() {
      OneMoreReceipt(r.receipts, Receipt(r.nextPo, r.nextDoc + 1, d.returned, 1));
    } else {
      assert t.receipts == r.receipts;
    }
  }

  lemma OneMoreReceipt(receipts: seq<Receipt>, k: Receipt)
    ensures ReceiptTotal(receipts + [k], k.ebeln) == ReceiptTotal(receipts, k.ebeln) + k.menge
  {
    assert (receipts + [k])[..|receipts|] == receipts;
  }

  /** A repair moves stock between on hand, quality inspection and the vendor: on hand plus quality
      changes by exactly the case's movements, and neither goes negative. */
  lemma RepairKeeps(key: PlantKey, lead: nat, s: Position, c: RepairChoice)
    requires WellFormed(s.rows) && key in s.rows.plants && c.Valid() && s.onHand >= 1 && s.quality >= 0
    ensures var t := Repair(key, lead, s, c);
            && WellFormed(t.rows) && t.rows.plants == s.rows.plants && s.rows.movements <= t.rows.movements
            && RepairMovements(t.rows.movements[|s.rows.movements|..], key, c)
            && CaseAdded(s.rows, t.rows, key, lead, c)
            && t.quality == s.quality + (if c.outcome == Returned then 1 else 0)
            && t.onHand + t.quality == s.onHand + s.quality + Net(t.rows.movements[|s.rows.movements|..], key)
            && t.onHand >= 0 && t.quality >= 0
  {
    hide CaseAdded;
    RepairDocuments(key, lead, s, c);
    var own := Repair(key, lead, s, c).rows.movements[|s.rows.movements|..];
    RepairBalance(own, key, c, AS_OF);
  }

  /** From `r` to `t` a case was added: for every outcome just one reservation, one requisition and one order, for
      one unit, dated as the outcome says; and the removal and return it has. */
  ghost predicate CaseAdded(r: Rows, t: Rows, key: PlantKey, lead: nat, c: RepairChoice) {
    var p := Places(|r.reservations|, |r.requisitions|, |r.orders|);
    && |t.reservations| == |r.reservations| + 1 && |t.requisitions| == |r.requisitions| + 1 && |t.orders| == |r.orders| + 1
    && |t.orderItems| == |r.orderItems| + 1 && |t.schedules| == |r.schedules| + 1 && r.movements <= t.movements
    && exists d: Dates :: AreDates(d, lead, c) && CaseWritten(t, p, key, d, c.outcome in {Returned, BackInStock})
         && CasePosted(t.movements[|r.movements|..], p, key, d, c)
  }

  lemma CaseIsAdded(key: PlantKey, lead: nat, s: Position, c: RepairChoice)
    requires WellFormed(s.rows) && s.rows.movements <= Repair(key, lead, s, c).rows.movements
    ensures CaseAdded(s.rows, Repair(key, lead, s, c).rows, key, lead, c)
  {
    SameLengths(s.rows);
    hide WellFormed, DatesOf, Repair, AreDates, CaseWritten, CasePosted;
    DatesAre(lead, c);
    CaseIsWritten(key, lead, s, c);
    CaseRows(key, lead, s, c);
  }

  /** A case keeps the documents fitting together and adds just its own, whatever its outcome. */
  lemma RepairDocuments(key: PlantKey, lead: nat, s: Position, c: RepairChoice)
    requires WellFormed(s.rows) && key in s.rows.plants && c.Valid()
    ensures var t := Repair(key, lead, s, c);
            && WellFormed(t.rows) && t.rows.plants == s.rows.plants && s.rows.movements <= t.rows.movements
            && RepairMovements(t.rows.movements[|s.rows.movements|..], key, c)
            && CaseAdded(s.rows, t.rows, key, lead, c)
  {
    DocumentsFit(key, lead, s, c);
    CaseIsAdded(key, lead, s, c);
  }

  lemma DocumentsFit(key: PlantKey, lead: nat, s: Position, c: RepairChoice)
    requires WellFormed(s.rows) && key in s.rows.plants && c.Valid()
    ensures var t := Repair(key, lead, s, c);
            && WellFormed(t.rows) && t.rows.plants == s.rows.plants && s.rows.movements <= t.rows.movements
            && RepairMovements(t.rows.movements[|s.rows.movements|..], key, c)
  {
    hide WellFormed;
    StagesFollowDates(c);
    SameLengths(s.rows);
    var requisition, item := |s.rows.requisitions|, |s.rows.poItems|;
    ReservedKeeps(s.rows, key, 1);
    var reserved := Reserved(s.rows, key, 1);
    if c.outcome == NewPurchaseInstead {
      var when := AS_OF - c.age;
      var aedat := Min(AS_OF, when + c.wait);
      RequestedKeeps(reserved, key, 1, when, None);
      OrderedKeeps(Requested(reserved, key, 1, when, None), key, 1, aedat, aedat + lead, requisition);
    } else {
      PostedKeeps(reserved, key, RepairRemoval, 1, c.RemovedOn(), false, None, None);
      var removed := Posted(reserved, key, RepairRemoval, 1, c.RemovedOn(), false, None, None);
      RequestedKeeps(removed, key, 1, c.RequestedOn(), None);
      var requested := Requested(removed, key, 1, c.RequestedOn(), None);
      OrderedKeeps(requested, key, 1, c.OrderedOn(), c.PromisedFor(), requisition);
      if c.ComesBack() {
        ReceivedKeeps(Ordered(requested, key, 1, c.OrderedOn(), c.PromisedFor(), requisition), key, item, 1, c.ReturnedOn());
      }
    }
  }

  /** The unit is away from its removal until its return. */
  predicate Away(c: RepairChoice, day: int) {
    c.LeavesStock() && c.RemovedOn() <= day && !(c.ComesBack() && c.ReturnedOn() <= day)
  }

  lemma RepairBalance(own: seq<Movement>, key: PlantKey, c: RepairChoice, day: int)
    requires c.Valid() && RepairMovements(own, key, c)
    ensures BalanceAt(own, key, day) == if Away(c, day) then -1 else 0
    ensures Net(own, key) == if c.LeavesStock() && !c.ComesBack() then -1 else 0
  {
    StagesFollowDates(c);
    if |own| == 2 {
      assert own == [own[0], own[1]];
      TwoMovements(own[0], own[1], key, day);
    } else if |own| == 1 {
      assert own == [own[0]];
      OneMovement(own[0], key, day);
    }
  }

  ghost predicate NeverShort(opening: int, ms: seq<Movement>, key: PlantKey) {
    forall day :: opening + BalanceAt(ms, key, day) >= 0
  }

  /** The removal is dated back, while the guard looks only at the closing stock. The dated ledger stays
      non-negative exactly when a unit was on hand on every day the unit is away. */
  lemma BackdatedRemoval(opening: int, before: seq<Movement>, own: seq<Movement>, key: PlantKey, c: RepairChoice)
    requires c.Valid() && RepairMovements(own, key, c) && NeverShort(opening, before, key)
    ensures NeverShort(opening, before + own, key) <==>
            forall day | Away(c, day) :: opening + BalanceAt(before, key, day) >= 1
  {
    forall day
      ensures opening + BalanceAt(before + own, key, day) ==
              opening + BalanceAt(before, key, day) - if Away(c, day) then 1 else 0
    {
      BalanceConcat(before, own, key, day);
      RepairBalance(own, key, c, day);
    }
    if NeverShort(opening, before + own, key) {
      forall day | Away(c, day) ensures opening + BalanceAt(before, key, day) >= 1 {
        assert opening + BalanceAt(before + own, key, day) >= 0;
      }
    }
  }

  // --- a run in which the guard is not enough -------------------------------------------------

  /** A repairable material-plant with a reorder point of 0.9, a maximum of 1 and one unit in stock, of
      which one unit is asked for in July 2026 and none in any other month. */
  const LEVELS: P.Drawn := P.Drawn(0.4, 0.5, 1.0, 1.0 / 24.0, 1.8, 1.0, 0.1, 1.4, 5.0, 2.0)

  const JULY: nat := 22

  function LonePlan(key: PlantKey): W.Plan {
    W.Plan(key, 0.9, 1.0, 60, true, seq(HISTORY_MONTHS, i => if i == JULY then 1 else 0))
  }

  /** Always on the first of the month; an order a day later, delivered in full on the promised day. */
  const PUNCTUAL: W.MonthChoice := W.MonthChoice(0, true, W.OrderChoice(1, false, 0, None))

  function LoneChoices(months: nat): seq<W.MonthChoice> {
    seq(months, _ => PUNCTUAL)
  }

  function LoneStart(key: PlantKey): W.Stock {
    W.Stock(NoDocuments({key}), 1, [])
  }

  /** Promised ten days ago after three weeks at the vendor, removed two days before it was ordered. */
  const LATE: RepairChoice := RepairChoice(Overdue, 21, 3, 1, 1, 0, 20, 2)

  lemma SummerDays()
    ensures MonthStart(JULY) + 31 == MonthStart(JULY + 1) && MonthStart(JULY) + 68 == AS_OF
    ensures LATE.Valid() && LATE.RemovedOn() == MonthStart(JULY) + 35
  {
    assert MonthStart(JULY) == FirstOf(2026, 7) && MonthStart(JULY + 1) == FirstOf(2026, 8);
  }

  lemma LoneLevels()
    ensures LEVELS.Valid() && P.LevelsOf(P.Repairable, false, LEVELS) == P.Levels(0.72, 0.9, 1.0)
    ensures P.Opening(P.Repairable, false, LEVELS) == 1
    ensures P.Replenishes(P.Repairable, P.Levels(0.72, 0.9, 1.0))
  {
    assert P.Scaled(0.4, 1.8) == 0.72 && P.Scaled(0.5, 1.8) == 0.9 && P.Scaled(1.0, 1.0) == 1.0 && P.Scaled(1.0 / 24.0, 2.0) <= 0.9;
    assert P.Round3(0.72) == 0.72 && P.Round3(0.9) == 0.9 && P.Round3(1.0) == 1.0;
  }

  lemma LoneChoicesValid()
    ensures W.ValidChoices(LoneChoices(HISTORY_MONTHS))
  {
  }

  /** July: the unit is used, and its replacement ordered for the end of August. */
  lemma LoneJuly(key: PlantKey)
    ensures var july := MonthStart(JULY);
            var t := W.Month(LonePlan(key), LoneStart(key), JULY, PUNCTUAL);
            && t.onHand == 0 && W.Placed(t) && t.pending == [W.Arrival(july + 61, 1, 0)] && t.rows.poItems[0].aedat == july + 1
            && t.rows.movements == [Movement(DOC_START, GiOrder, key, false, 1, july, None, None)]
            && t.rows.nextDoc == DOC_START + 1 && t.rows.poItems[0].ebeln == PO_START
  {
    SummerDays();
    hide MonthStart;
    var plan, s := LonePlan(key), LoneStart(key);
    assert W.ApplyArrivals(key, s, MonthStart(JULY)) == s;
    assert W.OrderQuantity(plan, 0) == 1;
  }

  /** August is quiet, and by September the replacement is there. */
  lemma LoneSimulated(key: PlantKey)
    ensures var july := MonthStart(JULY);
            var t := W.Simulated(LonePlan(key), LoneStart(key), LoneChoices(HISTORY_MONTHS));
            && t.onHand == 1
            && t.rows.movements == [Movement(DOC_START, GiOrder, key, false, 1, july, None, None),
                                    Movement(DOC_START + 1, GrPo, key, true, 1, july + 61, Some(PO_START), None)]
  {
    SummerDays();
    LoneJuly(key);
    var plan, s, july := LonePlan(key), LoneStart(key), MonthStart(JULY);
    hide MonthStart, W.Month;
    W.QuietWalk(plan, s, LoneChoices(JULY));
    assert Front(LoneChoices(JULY + 1)) == LoneChoices(JULY) && Front(LoneChoices(JULY + 2)) == LoneChoices(JULY + 1);
    var t := W.Month(plan, s, JULY, PUNCTUAL);
    assert W.Walk(plan, s, LoneChoices(JULY + 1)) == t;
    assert W.PendingTotal(t.pending) == 1;
    W.QuietMonth(plan, t, JULY + 1, PUNCTUAL);
    assert W.Walk(plan, s, LoneChoices(JULY + 2)) == t;
    var u := W.Arrive(key, t);
    assert W.ApplyArrivals(key, u, AS_OF) == u && W.ApplyArrivals(key, t, AS_OF) == u;
    assert s.(pending := []) == s && W.Simulated(plan, s, LoneChoices(JULY + 2)) == u;
  }

  /** A run of the walk itself: the unit used in July is back by September, so the guard lets the repair
      through, but the removal is dated into August, when there was none. */
  lemma GuardIsNotEnough(key: PlantKey)
    ensures LonePlan(key).Valid() && W.ValidChoices(LoneChoices(HISTORY_MONTHS)) && LATE.Valid()
    ensures var t := W.Simulated(LonePlan(key), LoneStart(key), LoneChoices(HISTORY_MONTHS));
            && t.onHand == 1 && WellFormed(t.rows)
            && NeverShort(1, t.rows.movements, key) && 1 + BalanceAt(t.rows.movements, key, LATE.RemovedOn()) == 0
            && !NeverShort(1, Repair(key, 60, Position(t.rows, t.onHand, 0), LATE).rows.movements, key)
  {
    LoneChoicesValid();
    SummerDays();
    var plan, s, choices := LonePlan(key), LoneStart(key), LoneChoices(HISTORY_MONTHS);
    EmptyIsWellFormed({key});
    W.SimulatedKeeps(plan, s, choices);
    LoneSimulated(key);
    var t := W.Simulated(plan, s, choices);
    var ms := t.rows.movements;
    assert ms[|s.rows.movements|..] == ms && ms == [ms[0], ms[1]];
    LoneShortage(key, t);
  }

  lemma LoneShortage(key: PlantKey, t: W.Stock)
    requires WellFormed(t.rows) && key in t.rows.plants && t.onHand == 1 && NeverShort(1, t.rows.movements, key)
    requires t.rows.movements == [Movement(DOC_START, GiOrder, key, false, 1, MonthStart(JULY), None, None),
                                  Movement(DOC_START + 1, GrPo, key, true, 1, MonthStart(JULY) + 61, Some(PO_START), None)]
    ensures 1 + BalanceAt(t.rows.movements, key, LATE.RemovedOn()) == 0
    ensures !NeverShort(1, Repair(key, 60, Position(t.rows, t.onHand, 0), LATE).rows.movements, key)
  {
    SummerDays();
    hide MonthStart, WellFormed, Repair;
    var ms, day := t.rows.movements, LATE.RemovedOn();
    TwoMovements(ms[0], ms[1], key, day);
    RepairKeeps(key, 60, Position(t.rows, t.onHand, 0), LATE);
    var after := Repair(key, 60, Position(t.rows, t.onHand, 0), LATE).rows.movements;
    assert after == ms + after[|ms|..];
    BackdatedRemoval(1, ms, after[|ms|..], key, LATE);
    assert Away(LATE, day);
  }
}
