/** Reservation-to-issue chains for materials ordered on demand (data-generator/generate.py,
    `build_oar_chain`), as a function of what is drawn. */
module OarChains {
  import opened Arithmetic
  import opened Wrappers
  import opened Calendar
  import opened Rounding
  import opened Ledger
  import opened Balances

  datatype Outcome =
    ReceivedAndUsed | ReceivedNotUsed | UseOverdue | PartialReceipt | PartialIssue | OpenReservation | NoConsumptionPlan

  datatype ChainChoice = ChainChoice(
    outcome: Outcome, quantity: nat, age: nat, requestDelay: nat, orderDelay: nat,
    share: real, receiptShift: int, issueDelay: nat)
  {
    predicate Valid() {
      && 1 <= quantity <= 4 && 30 <= age <= 320 && requestDelay <= 5 && 1 <= orderDelay <= 14
      && 0.4 <= share <= 0.7 && -3 <= receiptShift <= 25 && 1 <= issueDelay <= 60
    }

    function ReservedOn(lead: nat): int { AS_OF - Min(lead + age, HISTORY_MONTHS * 30) }

    function RequestedOn(lead: nat): int { Min(AS_OF, ReservedOn(lead) + requestDelay) }

    function OrderedOn(lead: nat): int { Min(AS_OF, RequestedOn(lead) + orderDelay) }

    function PromisedFor(lead: nat): int { OrderedOn(lead) + lead }

    function ReceivedOn(lead: nat): int {
      Min(AS_OF, Max(PromisedFor(lead) + receiptShift, OrderedOn(lead) + 1))
    }

    function IssuedOn(lead: nat): int { Min(AS_OF, ReceivedOn(lead) + issueDelay) }

    function ReceivedQuantity(): int {
      match outcome
      case OpenReservation => 0
      case PartialReceipt => PartOf(quantity, share)
      case _ => quantity
    }

    function IssuedQuantity(): int {
      match outcome
      case OpenReservation => 0
      case ReceivedNotUsed => 0
      case UseOverdue => 0
      case PartialIssue => PartOf(ReceivedQuantity(), 0.5)
      case _ => ReceivedQuantity()
    }
  }

  /** In every chain issued <= received <= reserved. */
  lemma QuantitiesNest(c: ChainChoice)
    requires c.Valid()
    ensures 0 <= c.IssuedQuantity() <= c.ReceivedQuantity() <= c.quantity
    ensures c.outcome != OpenReservation ==> c.ReceivedQuantity() >= 1
  {
    PartWithin(c.quantity, c.share);
    PartWithin(Max(1, c.ReceivedQuantity()), 0.5);
  }

  /** Whatever was received is used, in part at least, unless it is awaited or not used yet. */
  lemma UsedUnlessAwaited(c: ChainChoice)
    requires c.Valid()
    ensures c.IssuedQuantity() == 0 <==> c.outcome in {OpenReservation, ReceivedNotUsed, UseOverdue}
  {
    QuantitiesNest(c);
  }

  /** A partial outcome falls short exactly when more than one unit was asked for: a single unit is received
      and issued whole, whatever the outcome is called. Every other outcome takes all or nothing. */
  lemma PartialUnlessSingle(c: ChainChoice)
    requires c.Valid()
    ensures c.outcome == PartialReceipt ==>
              c.IssuedQuantity() == c.ReceivedQuantity() && (c.ReceivedQuantity() < c.quantity <==> c.quantity > 1)
    ensures c.outcome == PartialIssue ==>
              c.ReceivedQuantity() == c.quantity && (c.IssuedQuantity() < c.ReceivedQuantity() <==> c.quantity > 1)
    ensures c.outcome !in {PartialReceipt, PartialIssue} ==>
              c.ReceivedQuantity() in {0, c.quantity} && c.IssuedQuantity() in {0, c.quantity}
  {
    PartWithin(c.quantity, c.share);
    PartAtMost(c.quantity, c.share);
  }

  lemma PartAtMost(quantity: int, share: real)
    requires 1 <= quantity <= 4 && 0.4 <= share <= 0.7
    ensures PartOf(quantity, share) < quantity || quantity == 1
  {
    var q := quantity as real;
    assert q * share <= q * 0.7;
    RoundMonotone(q * share, q * 0.7);
    assert quantity == 1 || quantity == 2 || quantity == 3 || quantity == 4;
  }

  /** And every step of a chain follows the one before it, none after the as-of date. */
  lemma DatesFollow(c: ChainChoice, lead: nat)
    requires c.Valid()
    ensures c.ReservedOn(lead) <= c.RequestedOn(lead) <= c.OrderedOn(lead) <= c.ReceivedOn(lead) <= c.IssuedOn(lead) <= AS_OF
    ensures c.OrderedOn(lead) <= c.PromisedFor(lead)
  {
  }

  /** Writes the issued quantity back to the reservation. */
  function Consumed(r: Rows, reservation: nat, issued: int): Rows
    requires reservation < |r.reservations|
  {
    r.(reservations := r.reservations[reservation := r.reservations[reservation].(enmng := issued)])
  }

  /** The order, its receipt and, where the outcome has one, the issue. */
  function Fulfilled(key: PlantKey, lead: nat, r: Rows, c: ChainChoice, reservation: nat, requisition: nat): Rows
    requires reservation < |r.reservations| && requisition < |r.requisitions|
  {
    var ordered := Ordered(r, key, c.quantity, c.OrderedOn(lead), c.PromisedFor(lead), requisition);
    var received := Received(ordered, key, |r.poItems|, c.ReceivedQuantity(), c.ReceivedOn(lead));
    if c.IssuedQuantity() == 0 then received
    else
      var rsnum := received.reservations[reservation].rsnum;
      Consumed(Posted(received, key, GiOrder, c.IssuedQuantity(), c.IssuedOn(lead), false, None, Some(rsnum)),
               reservation, c.IssuedQuantity())
  }

  function Chain(key: PlantKey, lead: nat, r: Rows, c: ChainChoice): Rows {
    var reservation, requisition := |r.reservations|, |r.requisitions|;
    var requested := Requested(Reserved(r, key, c.quantity), key, c.quantity, c.RequestedOn(lead), Some(reservation));
    if c.outcome == OpenReservation then requested
    else Fulfilled(key, lead, requested, c, reservation, requisition)
  }

  lemma ConsumedKeeps(r: Rows, reservation: nat, issued: int)
    requires WellFormed(r) && reservation < |r.reservations|
    ensures WellFormed(Consumed(r, reservation, issued))
  {
    hide OrdersAgree, OrdersLinked, ReceiptsMatch, MovementsFit, HeadersNumbered, RequisitionsNumbered;
    var after := r.reservations[reservation := r.reservations[reservation].(enmng := issued)];
    hide ReservationLinked, DemandLinked;
    forall i: nat | i < |after| ensures ReservationLinked(i, after[i], r.requisitions) {
      assert ReservationLinked(i, r.reservations[i], r.requisitions);
      LinkIgnoresIssue(i, r.reservations[i], issued, r.requisitions);
    }
    forall j: nat | j < |r.requisitions| ensures DemandLinked(j, r.requisitions[j], after) {
      assert DemandLinked(j, r.requisitions[j], r.reservations);
      DemandIgnoresIssue(j, r.requisitions[j], r.reservations, reservation, issued);
    }
  }

  lemma LinkIgnoresIssue(i: nat, res: Reservation, issued: int, requisitions: seq<Requisition>)
    requires ReservationLinked(i, res, requisitions)
    ensures ReservationLinked(i, res.(enmng := issued), requisitions)
  {
  }

  lemma DemandIgnoresIssue(j: nat, req: Requisition, reservations: seq<Reservation>, i: nat, issued: int)
    requires DemandLinked(j, req, reservations) && i < |reservations|
    ensures DemandLinked(j, req, reservations[i := reservations[i].(enmng := issued)])
  {
  }

  /** The chain's own movements. */
  ghost predicate ChainMovements(own: seq<Movement>, key: PlantKey, lead: nat, c: ChainChoice) {
    && |own| == (if c.outcome == OpenReservation then 0 else if c.IssuedQuantity() == 0 then 1 else 2)
    && AllOf(own, key)
    && (|own| >= 1 ==> own[0].debit && own[0].menge == c.ReceivedQuantity() && own[0].budat == c.ReceivedOn(lead))
    && (|own| == 2 ==> !own[1].debit && own[1].menge == c.IssuedQuantity() && own[1].budat == c.IssuedOn(lead))
  }

  /** A chain's receipt covers its issue on every day, and the chain leaves received less issued. */
  lemma ChainNeverOwes(own: seq<Movement>, key: PlantKey, lead: nat, c: ChainChoice, day: int)
    requires c.Valid() && ChainMovements(own, key, lead, c)
    ensures BalanceAt(own, key, day) >= 0
    ensures Net(own, key) == c.ReceivedQuantity() - c.IssuedQuantity()
  {
    QuantitiesNest(c);
    DatesFollow(c, lead);
    if |own| == 2 {
      assert own == [own[0], own[1]];
      TwoMovements(own[0], own[1], key, day);
    } else if |own| == 1 {
      assert own == [own[0]];
      OneMovement(own[0], key, day);
    }
  }

  lemma ChainKeeps(key: PlantKey, lead: nat, r: Rows, c: ChainChoice)
    requires WellFormed(r) && key in r.plants && c.Valid()
    ensures var t := Chain(key, lead, r, c);
            && WellFormed(t) && t.plants == r.plants && r.movements <= t.movements
            && ChainMovements(t.movements[|r.movements|..], key, lead, c)
            && |t.reservations| == |r.reservations| + 1
            && t.reservations[|r.reservations|].bdmng == c.quantity
            && t.reservations[|r.reservations|].enmng == c.IssuedQuantity()
  {
    hide WellFormed;
    QuantitiesNest(c);
    DatesFollow(c, lead);
    SameLengths(r);
    var reservation, requisition, item := |r.reservations|, |r.requisitions|, |r.poItems|;
    ReservedKeeps(r, key, c.quantity);
    var reserved := Reserved(r, key, c.quantity);
    RequestedKeeps(reserved, key, c.quantity, c.RequestedOn(lead), Some(reservation));
    var requested := Requested(reserved, key, c.quantity, c.RequestedOn(lead), Some(reservation));
    if c.outcome != OpenReservation {
      OrderedKeeps(requested, key, c.quantity, c.OrderedOn(lead), c.PromisedFor(lead), requisition);
      var ordered := Ordered(requested, key, c.quantity, c.OrderedOn(lead), c.PromisedFor(lead), requisition);
      ReceivedKeeps(ordered, key, item, c.ReceivedQuantity(), c.ReceivedOn(lead));
      var received := Received(ordered, key, item, c.ReceivedQuantity(), c.ReceivedOn(lead));
      if c.IssuedQuantity() > 0 {
        var rsnum := received.reservations[reservation].rsnum;
        PostedKeeps(received, key, GiOrder, c.IssuedQuantity(), c.IssuedOn(lead), false, None, Some(rsnum));
        ConsumedKeeps(Posted(received, key, GiOrder, c.IssuedQuantity(), c.IssuedOn(lead), false, None, Some(rsnum)),
                      reservation, c.IssuedQuantity());
      }
    }
  }
}
