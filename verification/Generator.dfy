/** The builders of data-generator/generate.py, working on the tables in memory. What they draw is an
    oracle: any value in the stated range. Each is proved to do exactly what the value-level function of
    its module says, for some valid choice. */
module Generator {
  import opened Arithmetic
  import opened Wrappers
  import opened Calendar
  import opened Rounding
  import opened Ledger
  import opened Sequences
  import opened Balances
  import opened Tables
  import W = StockWalk
  import C = OarChains
  import R = Repairs
  import P = Planning

  method RandInt(low: int, high: int) returns (x: int)
    requires low <= high
    ensures low <= x <= high
  {
    x := *;
    if !(low <= x <= high) {
      x := low;
    }
  }

  method Uniform(low: real, high: real) returns (x: real)
    requires low <= high
    ensures low <= x <= high
  {
    x := *;
    if !(low <= x <= high) {
      x := low;
    }
  }

  method Chance() returns (b: bool) {
    b := *;
  }

  /** One material at one plant, with its running position. `opening` is what the stock was before any
      movement. */
  class MaterialPlant {
    const plan: W.Plan
    const isOar: bool
    const isRepairable: bool
    const opening: int
    var onHand: int
    var qualityStock: int
    var openPoQty: int

    ghost predicate Valid() {
      plan.Valid() && opening >= 0 && (isOar ==> opening == 0 && !isRepairable)
    }

    function Key(): PlantKey {
      plan.key
    }

    constructor (key: PlantKey, story: P.Story, oar: bool, drawn: P.Drawn, lead: nat, demand: seq<nat>)
      requires drawn.Valid() && (oar ==> story == P.OnDemand) && lead >= 7 && |demand| == HISTORY_MONTHS
      ensures Valid() && Key() == key && onHand == opening && qualityStock == 0 && openPoQty == 0
      ensures isOar == oar && isRepairable == (story == P.Repairable) && opening == P.Opening(story, oar, drawn)
      ensures var levels := P.LevelsOf(story, oar, drawn);
              plan == W.Plan(key, levels.minbe, levels.mabst, lead, P.Replenishes(story, levels), demand)
    {
      P.LevelsOrdered(story, oar, drawn);
      P.OpeningFits(story, oar, drawn);
      var levels := P.LevelsOf(story, oar, drawn);
      plan := W.Plan(key, levels.minbe, levels.mabst, lead, P.Replenishes(story, levels), demand);
      isOar, isRepairable := oar, story == P.Repairable;
      opening := P.Opening(story, oar, drawn);
      onHand := P.Opening(story, oar, drawn);
      qualityStock, openPoQty := 0, 0;
    }
  }

  // --- consumption and replenishment ---------------------------------------------------

  method ApplyArrivals(d: Dataset, e: MaterialPlant, pending: seq<W.Arrival>, until: int) returns (left: seq<W.Arrival>)
    requires W.Placed(W.Stock(d.Snapshot(), e.onHand, pending))
    modifies d, e`onHand
    ensures W.Stock(d.Snapshot(), e.onHand, left) == W.ApplyArrivals(e.Key(), old(W.Stock(d.Snapshot(), e.onHand, pending)), until)
  {
    left := pending;
    ghost var start := W.Stock(d.Snapshot(), e.onHand, pending);
    while left != [] && left[0].day <= until
      invariant W.Placed(W.Stock(d.Snapshot(), e.onHand, left))
      invariant W.ApplyArrivals(e.Key(), W.Stock(d.Snapshot(), e.onHand, left), until) == W.ApplyArrivals(e.Key(), start, until)
      decreases |left|
    {
      var a := left[0];
      assert a.item < |d.poItems|;
      left := left[1..];
      var day := Max(a.day, d.poItems[a.item].aedat + 1);
      d.PostReceipt(e.Key(), a.item, a.quantity, day);
      e.onHand := e.onHand + a.quantity;
    }
  }

  method RaiseReplenishment(d: Dataset, e: MaterialPlant, when: int, pending: seq<W.Arrival>)
    returns (left: seq<W.Arrival>, ghost c: W.OrderChoice)
    modifies d
    ensures c.Valid()
    ensures W.Stock(d.Snapshot(), e.onHand, left) == W.Replenish(e.plan, old(W.Stock(d.Snapshot(), e.onHand, pending)), when, c)
  {
    left := pending;
    var quantity := W.OrderQuantity(e.plan, e.onHand);
    var requisition := Request(d, e.Key(), quantity, when);
    var wait := RandInt(1, 12);
    var aedat := Min(AS_OF, when + wait);
    var eindt := aedat + e.plan.lead;
    var item := d.CreateOrder(e.Key(), quantity, aedat, eindt, requisition);
    var leftOpen := Chance();
    if leftOpen {
      c := W.OrderChoice(wait, true, 0, None);
      return;
    }
    var late := Chance();
    var shift: int;
    if late {
      shift := RandInt(2, 40);
    } else {
      shift := RandInt(-4, 0);
    }
    var part := Chance();
    var share := None;
    if part {
      var u := Uniform(0.4, 0.8);
      share := Some(u);
    }
    c := W.OrderChoice(wait, false, shift, share);
    left := W.InsertArrival(pending, W.Arrival(eindt + shift, W.Delivered(quantity, share), item));
  }

  method SimulateMonth(d: Dataset, e: MaterialPlant, index: nat, pending: seq<W.Arrival>)
    returns (left: seq<W.Arrival>, ghost c: W.MonthChoice)
    requires index < |e.plan.demand| && W.Placed(W.Stock(d.Snapshot(), e.onHand, pending))
    modifies d, e`onHand
    ensures c.offset < Span(index) && c.order.Valid()
    ensures W.Stock(d.Snapshot(), e.onHand, left) == W.Month(e.plan, old(W.Stock(d.Snapshot(), e.onHand, pending)), index, c)
  {
    hide MonthStart;
    var offset := RandInt(0, Span(index) - 1);
    var when := DayInMonth(index, offset);
    left := ApplyArrivals(d, e, pending, when);
    ghost var arrived := W.Stock(d.Snapshot(), e.onHand, left);
    var demand := e.plan.demand[index];
    var toOrder := Chance();
    if demand > 0 && e.onHand > 0 {
      var issued := Min(demand, e.onHand);
      var _ := d.PostMovement(e.Key(), if toOrder then GiOrder else GiCostCentre, issued, when, false, None, None);
      e.onHand := e.onHand - issued;
    }
    ghost var issuedStock := W.Stock(d.Snapshot(), e.onHand, left);
    assert issuedStock == W.Issue(e.Key(), arrived, demand, when, toOrder);
    ghost var order := W.OrderChoice(1, true, 0, None);
    if e.plan.replenishes && (e.onHand + W.PendingTotal(left)) as real <= e.plan.minbe {
      left, order := RaiseReplenishment(d, e, when, left);
    }
    c := W.MonthChoice(offset, toOrder, order);
  }

  method Simulate(d: Dataset, e: MaterialPlant) returns (ghost choices: seq<W.MonthChoice>)
    requires e.Valid() && WellFormed(d.Snapshot()) && e.Key() in d.plants && e.onHand >= 0
    modifies d, e
    ensures W.ValidChoices(choices) && |choices| == HISTORY_MONTHS
    ensures var t := W.Simulated(e.plan, W.Stock(old(d.Snapshot()), old(e.onHand), []), choices);
            && d.Snapshot() == t.rows && e.onHand == t.onHand && e.qualityStock == old(e.qualityStock)
            && e.openPoQty == old(e.openPoQty) + W.PendingTotal(t.pending)
  {
    hide WellFormed, W.Month, W.ApplyArrivals, W.Sound, W.Bounded, W.Grown, W.Placed, W.OrderChoice.Valid, Span;
    ghost var start := W.Stock(d.Snapshot(), e.onHand, []);
    var pending := [];
    choices := [];
    var index := 0;
    while index < |e.plan.demand|
      invariant index == |choices| <= |e.plan.demand| && W.ValidChoices(choices)
      invariant W.Stock(d.Snapshot(), e.onHand, pending) == W.Walk(e.plan, start, choices)
      invariant e.qualityStock == old(e.qualityStock) && e.openPoQty == old(e.openPoQty)
    {
      W.WalkKeeps(e.plan, start, choices);
      ghost var c;
      pending, c := SimulateMonth(d, e, index, pending);
      assert Front(choices + [c]) == choices;
      choices := choices + [c];
      index := index + 1;
    }
    W.WalkKeeps(e.plan, start, choices);
    pending := ApplyArrivals(d, e, pending, AS_OF);
    ghost var closing := pending;
    var i := 0;
    while i < |pending|
      invariant i <= |pending|
      invariant e.openPoQty + W.PendingTotal(pending[i..]) == old(e.openPoQty) + W.PendingTotal(pending)
      invariant W.Stock(d.Snapshot(), e.onHand, pending) == W.Simulated(e.plan, start, choices)
      invariant e.qualityStock == old(e.qualityStock)
    {
      e.openPoQty := e.openPoQty + pending[i].quantity;
      assert pending[i..][1..] == pending[i + 1..];
      i := i + 1;
    }
  }

  // --- reservation to issue chains ---------------------------------------------------------

  method PickOarOutcome() returns (outcome: C.Outcome) {
    outcome := *;
  }

  method DrawChain() returns (c: C.ChainChoice)
    ensures c.Valid()
  {
    var outcome := PickOarOutcome();
    var quantity := RandInt(1, 4);
    var age := RandInt(30, 320);
    var requestDelay := RandInt(0, 5);
    var orderDelay := RandInt(1, 14);
    var share := Uniform(0.4, 0.7);
    var receiptShift := RandInt(-3, 25);
    var issueDelay := RandInt(1, 60);
    c := C.ChainChoice(outcome, quantity, age, requestDelay, orderDelay, share, receiptShift, issueDelay);
  }

  /** A reservation and its requisition, each naming the other. */
  method ReserveAndRequest(d: Dataset, key: PlantKey, quantity: int, requestedOn: int)
    returns (reservation: nat, requisition: nat)
    modifies d`reservations, d`nextRes, d`requisitions, d`nextPr
    ensures reservation == |old(d.reservations)| < |d.reservations|
    ensures requisition == |old(d.requisitions)| < |d.requisitions|
    ensures d.Snapshot() == Requested(Reserved(old(d.Snapshot()), key, quantity), key, quantity, requestedOn, Some(reservation))
  {
    reservation := d.CreateReservation(key, quantity);
    requisition := d.CreateRequisition(key, quantity, requestedOn, Some(d.reservations[reservation].rsnum));
    d.reservations := d.reservations[reservation := d.reservations[reservation].(banfn := Some(d.requisitions[requisition].banfn))];
  }

  method IssueToOrder(d: Dataset, key: PlantKey, reservation: nat, issued: int, when: int)
    requires reservation < |d.reservations|
    modifies d`headers, d`movements, d`nextDoc, d`reservations
    ensures var rsnum := Some(old(d.reservations)[reservation].rsnum);
            d.Snapshot() == C.Consumed(Posted(old(d.Snapshot()), key, GiOrder, issued, when, false, None, rsnum), reservation, issued)
  {
    var _ := d.PostMovement(key, GiOrder, issued, when, false, None, Some(d.reservations[reservation].rsnum));
    d.reservations := d.reservations[reservation := d.reservations[reservation].(enmng := issued)];
  }

  method OrderAndReceive(d: Dataset, key: PlantKey, quantity: int, aedat: int, eindt: int, requisition: nat,
                         received: int, receivedOn: int)
    requires requisition < |d.requisitions|
    modifies d
    ensures d.reservations == old(d.reservations)
    ensures d.Snapshot() == Received(Ordered(old(d.Snapshot()), key, quantity, aedat, eindt, requisition),
                                     key, |old(d.poItems)|, received, receivedOn)
  {
    hide Ordered, Received;
    var item := d.CreateOrder(key, quantity, aedat, eindt, requisition);
    d.PostReceipt(key, item, received, receivedOn);
  }

  method Fulfil(d: Dataset, e: MaterialPlant, c: C.ChainChoice, requestedOn: int, reservation: nat, requisition: nat)
    requires c.Valid() && c.outcome != C.OpenReservation && requestedOn == c.RequestedOn(e.plan.lead)
    requires reservation < |d.reservations| && requisition < |d.requisitions|
    modifies d, e`onHand
    ensures d.Snapshot() == C.Fulfilled(e.Key(), e.plan.lead, old(d.Snapshot()), c, reservation, requisition)
    ensures e.onHand == old(e.onHand) + c.ReceivedQuantity() - c.IssuedQuantity()
  {
    hide C.ChainChoice.Valid;
    C.UsedUnlessAwaited(c);
    hide Ordered, Received, Posted, C.Consumed, AS_OF, PartOf;
    var aedat := Min(AS_OF, requestedOn + c.orderDelay);
    var eindt := aedat + e.plan.lead;
    var received := c.quantity;
    if c.outcome == C.PartialReceipt {
      received := PartOf(c.quantity, c.share);
    }
    var receivedOn := Min(AS_OF, Max(eindt + c.receiptShift, aedat + 1));
    OrderAndReceive(d, e.Key(), c.quantity, aedat, eindt, requisition, received, receivedOn);
    e.onHand := e.onHand + received;
    if c.outcome != C.ReceivedNotUsed && c.outcome != C.UseOverdue {
      IssueReceived(d, e, c, received, receivedOn, reservation);
    }
  }

  method IssueReceived(d: Dataset, e: MaterialPlant, c: C.ChainChoice, received: int, receivedOn: int, reservation: nat)
    requires c.outcome !in {C.OpenReservation, C.ReceivedNotUsed, C.UseOverdue} && reservation < |d.reservations|
    requires received == c.ReceivedQuantity() && receivedOn == c.ReceivedOn(e.plan.lead)
    modifies d`headers, d`movements, d`nextDoc, d`reservations, e`onHand
    ensures var rsnum := Some(old(d.reservations)[reservation].rsnum);
            d.Snapshot() == C.Consumed(Posted(old(d.Snapshot()), e.Key(), GiOrder, c.IssuedQuantity(), c.IssuedOn(e.plan.lead),
                                              false, None, rsnum), reservation, c.IssuedQuantity())
    ensures e.onHand == old(e.onHand) - c.IssuedQuantity()
  {
    hide Posted, C.Consumed, AS_OF, PartOf;
    var issued := received;
    if c.outcome == C.PartialIssue {
      issued := PartOf(received, 0.5);
    }
    var issuedOn := Min(AS_OF, receivedOn + c.issueDelay);
    IssueToOrder(d, e.Key(), reservation, issued, issuedOn);
    e.onHand := e.onHand - issued;
  }

  method BuildOarChain(d: Dataset, e: MaterialPlant) returns (c: C.ChainChoice)
    modifies d, e`onHand
    ensures c.Valid()
    ensures d.Snapshot() == C.Chain(e.Key(), e.plan.lead, old(d.Snapshot()), c)
    ensures e.onHand == old(e.onHand) + c.ReceivedQuantity() - c.IssuedQuantity()
  {
    hide Requested, Reserved, C.Fulfilled, AS_OF;
    c := DrawChain();
    var reservedOn := AS_OF - Min(e.plan.lead + c.age, HISTORY_MONTHS * 30);
    var requestedOn := Min(AS_OF, reservedOn + c.requestDelay);
    var reservation, requisition := ReserveAndRequest(d, e.Key(), c.quantity, requestedOn);
    if c.outcome == C.OpenReservation {
      return;
    }
    Fulfil(d, e, c, requestedOn, reservation, requisition);
  }

  // --- repair cases --------------------------------------------------------------------------

  method PickRepairOutcome() returns (outcome: R.Outcome) {
    outcome := *;
  }

  method DrawDue(outcome: R.Outcome, turnaround: int) returns (due: int)
    requires 21 <= turnaround <= 95
    ensures match outcome
            case InRepair => R.OVERDUE_GRACE_DAYS + 5 <= due <= turnaround
            case ExpectedBack => 0 <= due <= R.OVERDUE_GRACE_DAYS
            case Overdue => 3 <= due <= 90
            case _ => 10 <= due <= 240
  {
    match outcome {
      case InRepair => due := RandInt(R.OVERDUE_GRACE_DAYS + 5, turnaround);
      case ExpectedBack => due := RandInt(0, R.OVERDUE_GRACE_DAYS);
      case Overdue => due := RandInt(3, 90);
      case _ => due := RandInt(10, 240);
    }
  }

  function StandOf(d: Dataset, e: MaterialPlant): R.Position
    reads d, e
  {
    R.Position(d.Snapshot(), e.onHand, e.qualityStock)
  }

  method DrawRepair() returns (c: R.RepairChoice)
    ensures c.Valid()
  {
    var outcome := PickRepairOutcome();
    var turnaround := RandInt(21, 95);
    var due := DrawDue(outcome, turnaround);
    var orderLead := RandInt(1, 8);
    var removalLead := RandInt(1, 6);
    var returnDelay := RandInt(0, 25);
    var age := RandInt(20, 300);
    var wait := RandInt(2, 15);
    c := R.RepairChoice(outcome, turnaround, due, orderLead, removalLead, returnDelay, age, wait);
  }

  method BuildRepairCase(d: Dataset, e: MaterialPlant) returns (c: R.RepairChoice)
    modifies d, e`onHand, e`qualityStock
    ensures c.Valid()
    ensures StandOf(d, e) == R.Repair(e.Key(), e.plan.lead, old(StandOf(d, e)), c)
  {
    c := DrawRepair();
    hide Requested, Ordered, AS_OF, R.RepairChoice.Valid, R.Dispatched;
    var _ := d.CreateReservation(e.Key(), 1);
    if c.outcome == R.NewPurchaseInstead {
      BuildNewPurchase(d, e, c.age, c.wait);
    } else {
      Dispatch(d, e, c);
    }
  }

  /** The unit's removal, the requisition and the repair order. */
  method SendOut(d: Dataset, key: PlantKey, removedOn: int, requestedOn: int, orderedOn: int, eindt: int) returns (item: nat)
    modifies d
    ensures item == |old(d.poItems)| < |d.poItems|
    ensures var r := old(d.Snapshot());
            var requested := Requested(Posted(r, key, RepairRemoval, 1, removedOn, false, None, None), key, 1, requestedOn, None);
            d.Snapshot() == Ordered(requested, key, 1, orderedOn, eindt, |r.requisitions|)
  {
    hide Ordered, Requested, Posted;
    var _ := d.PostMovement(key, RepairRemoval, 1, removedOn, false, None, None);
    var requisition := Request(d, key, 1, requestedOn);
    item := d.CreateOrder(key, 1, orderedOn, eindt, requisition);
  }

  method Dispatch(d: Dataset, e: MaterialPlant, c: R.RepairChoice)
    requires c.LeavesStock()
    modifies d, e`onHand, e`qualityStock
    ensures StandOf(d, e) == R.Dispatched(e.Key(), old(StandOf(d, e)), c)
  {
    hide Requested, Ordered, Received, Posted, AS_OF;
    var eindt := match c.outcome
      case InRepair => AS_OF + c.due
      case ExpectedBack => AS_OF + c.due
      case Overdue => AS_OF - (R.OVERDUE_GRACE_DAYS + c.due)
      case _ => AS_OF - c.due;
    var orderedOn := eindt - c.turnaround;
    var requestedOn := orderedOn - c.orderLead;
    var removedOn := requestedOn - c.removalLead;
    e.onHand := e.onHand - 1;
    var item := SendOut(d, e.Key(), removedOn, requestedOn, orderedOn, eindt);
    if c.outcome == R.Returned || c.outcome == R.BackInStock {
      var returnedOn := Min(AS_OF, eindt + c.returnDelay);
      d.PostReceipt(e.Key(), item, 1, returnedOn);
      if c.outcome == R.BackInStock {
        e.onHand := e.onHand + 1;
      } else {
        e.qualityStock := e.qualityStock + 1;
      }
    }
  }

  method Request(d: Dataset, key: PlantKey, quantity: int, when: int) returns (requisition: nat)
    modifies d`requisitions, d`nextPr
    ensures requisition == |old(d.requisitions)| < |d.requisitions|
    ensures d.Snapshot() == Requested(old(d.Snapshot()), key, quantity, when, None)
  {
    requisition := d.CreateRequisition(key, quantity, when, None);
  }

  /** A new unit bought while a repairable one is on hand. */
  method BuildNewPurchase(d: Dataset, e: MaterialPlant, age: nat, wait: nat)
    modifies d`requisitions, d`nextPr, d`orders, d`poItems, d`orderItems, d`schedules, d`nextPo
    ensures var r := old(d.Snapshot());
            var aedat := Min(AS_OF, AS_OF - age + wait);
            d.Snapshot() == Ordered(Requested(r, e.Key(), 1, AS_OF - age, None), e.Key(), 1, aedat, aedat + e.plan.lead, |r.requisitions|)
  {
    var when := AS_OF - age;
    var requisition := Request(d, e.Key(), 1, when);
    var aedat := Min(AS_OF, when + wait);
    var _ := d.CreateOrder(e.Key(), 1, aedat, aedat + e.plan.lead, requisition);
  }
}
