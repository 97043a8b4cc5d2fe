/** Why the checks find nothing: what every step of the generator keeps implies each of their sections. */
module Consistency {
  import opened Wrappers
  import opened Calendar
  import opened Ledger
  import opened Balances
  import opened Sequences
  import opened Closing
  import opened Check

  ghost predicate HeldFits(h: Held, row: StockRow, batches: seq<Batch>, r: Rows) {
    && h.key in r.plants && h.onHand >= 0 && h.onHand + h.quality == h.opening + Net(r.movements, h.key)
    && row.key == h.key && row.labst == Labst(h.onHand) && BatchesFit(batches, h.key, row.labst)
  }

  /** One stock row for every material-plant held, split into its batches. */
  ghost predicate StockWritten(t: Output) {
    && |t.stock| == |t.held|
    && (forall i, j | 0 <= i < j < |t.held| :: t.held[i].key != t.held[j].key)
    && (forall i | 0 <= i < |t.held| :: HeldFits(t.held[i], t.stock[i], t.batches, t.rows))
    && BatchesNumbered(t.batches, t.rows.plants)
  }

  ghost predicate Finished(t: Output) {
    && WellFormed(t.rows) && DeliveriesStated(t.rows) && StockWritten(t)
    && forall p | p in t.rows.plants :: p.werks in t.codes
  }

  lemma OrderNumbered(r: Rows)
    requires WellFormed(r)
    ensures |r.orders| == |r.orderItems| == |r.schedules| == |r.poItems|
    ensures forall i: nat | i < |r.orders| ::
              && r.orders[i].ebeln == r.orderItems[i].ebeln == r.schedules[i].ebeln == PO_START + i
              && r.orderItems[i].menge > 0 && r.orders[i].aedat == r.poItems[i].aedat <= r.schedules[i].eindt
  {
    forall i: nat | i < |r.orders|
      ensures && r.orders[i].ebeln == r.orderItems[i].ebeln == r.schedules[i].ebeln == PO_START + i
              && r.orderItems[i].menge > 0 && r.orders[i].aedat == r.poItems[i].aedat <= r.schedules[i].eindt
    {
      assert OrderAgrees(i, r.orders[i], r.orderItems[i], r.schedules[i], r.poItems[i]);
    }
  }

  lemma DocumentKeysHold(r: Rows)
    requires WellFormed(r)
    ensures NoRepeats(ReservationNumbers(r)) && NoRepeats(RequisitionNumbers(r)) && NoRepeats(OrderNumbers(r))
    ensures NoRepeats(ItemNumbers(r)) && NoRepeats(LineNumbers(r)) && NoRepeats(ReceiptNumbers(r))
    ensures NoRepeats(DocumentNumbers(r)) && NoRepeats(MovementNumbers(r))
  {
    OrderNumbered(r);
    hide OrdersAgree, OrdersLinked, ReservationsLinked, HistoryAddsUp, MovementsFit, ReceiptFits;
  }

  lemma KeysHold(t: Output)
    requires Finished(t)
    ensures KeysUnique(t)
  {
    DocumentKeysHold(t.rows);
    hide WellFormed, HeldFits, BatchTotal;
    forall i, j | 0 <= i < j < |t.stock| ensures t.stock[i].key != t.stock[j].key {
      assert HeldFits(t.held[i], t.stock[i], t.batches, t.rows) && HeldFits(t.held[j], t.stock[j], t.batches, t.rows);
      StockRowIs(t, i);
      StockRowIs(t, j);
    }
  }

  lemma StockRowIs(t: Output, i: nat)
    requires StockWritten(t) && i < |t.stock|
    ensures var h, row := t.held[i], t.stock[i];
            && h.key in t.rows.plants && h.onHand >= 0 && h.onHand + h.quality == h.opening + Net(t.rows.movements, h.key)
            && row.key == h.key && row.labst == Labst(h.onHand) >= 0
            && row.labst <= BatchTotal(t.batches, row.key) <= row.labst + 1
  {
    assert HeldFits(t.held[i], t.stock[i], t.batches, t.rows);
  }

  lemma MaterialsHold(t: Output)
    requires Finished(t)
    ensures StockReferences(t) && MaterialReferences(t.rows) && PlantsKnown(t)
  {
    hide Numbered, OrdersAgree, OrdersLinked, ReservationsLinked, ReceiptsMatch, HistoryAddsUp, MovementsFit, HeldFits;
    hide BatchTotal, Net;
    forall x | x in t.stock ensures x.key in t.rows.plants {
      var i :| 0 <= i < |t.stock| && t.stock[i] == x;
      StockRowIs(t, i);
    }
    assert KeysKnown(t.rows);
  }

  lemma ParentsHold(r: Rows)
    requires WellFormed(r)
    ensures ParentReferences(r)
  {
    OrderNumbered(r);
    assert HeadersNumbered(r.headers, r.movements);
    forall k: nat | k < |r.receipts| ensures r.receipts[k].ebeln in ItemNumbers(r) {
      assert ReceiptFits(r.receipts[k], r.poItems, r.movements);
      assert ItemNumbers(r)[r.receipts[k].ebeln - PO_START] == r.receipts[k].ebeln;
    }
    hide WellFormed;
    forall i: nat | i < |r.orderItems| ensures r.orderItems[i].ebeln in OrderNumbers(r) && r.schedules[i].ebeln in ItemNumbers(r) {
      assert OrderNumbers(r)[i] == PO_START + i && ItemNumbers(r)[i] == PO_START + i;
    }
    forall i: nat | i < |r.movements| ensures r.movements[i].mblnr in DocumentNumbers(r) {
      assert DocumentNumbers(r)[i] == DOC_START + i;
    }
  }

  lemma NumbersFound(r: Rows, n: nat)
    requires WellFormed(r)
    ensures 0 <= n - PO_START < |r.orders| ==> n in OrderNumbers(r)
    ensures 0 <= n - PR_START < |r.requisitions| ==> n in RequisitionNumbers(r)
    ensures 0 <= n - RES_START < |r.reservations| ==> n in ReservationNumbers(r)
  {
    OrderNumbered(r);
    hide OrdersAgree, OrdersLinked, ReservationsLinked, ReceiptsMatch, HistoryAddsUp, MovementsFit, KeysKnown;
    if 0 <= n - PO_START < |r.orders| { assert OrderNumbers(r)[n - PO_START] == n; }
    if 0 <= n - PR_START < |r.requisitions| { assert RequisitionNumbers(r)[n - PR_START] == n; }
    if 0 <= n - RES_START < |r.reservations| { assert ReservationNumbers(r)[n - RES_START] == n; }
  }

  /** Where a document's optional reference points. */
  lemma ReferenceFound(r: Rows, reference: Option<nat>)
    requires WellFormed(r)
    ensures (reference.Some? ==> 0 <= reference.value - PO_START < |r.orders|) ==> Resolves(reference, OrderNumbers(r))
    ensures (reference.Some? ==> 0 <= reference.value - PR_START < |r.requisitions|) ==> Resolves(reference, RequisitionNumbers(r))
    ensures (reference.Some? ==> 0 <= reference.value - RES_START < |r.reservations|) ==> Resolves(reference, ReservationNumbers(r))
  {
    hide WellFormed;
    if reference.Some? {
      NumbersFound(r, reference.value);
    }
  }

  lemma OptionalHold(r: Rows)
    requires WellFormed(r)
    ensures OptionalReferences(r)
  {
    assert OrdersLinked(r.orders, r.orderItems, r.requisitions) && ReservationsLinked(r.reservations, r.requisitions);
    assert MovementsFit(r.movements, |r.orders|, |r.reservations|);
    hide WellFormed, Resolves, OrderNumbers, RequisitionNumbers, ReservationNumbers;
    forall i: nat | i < |r.orderItems| ensures Resolves(r.orderItems[i].banfn, RequisitionNumbers(r)) {
      assert ItemLinked(i, r.orderItems[i], r.orders[i].aedat, r.requisitions);
      ReferenceFound(r, r.orderItems[i].banfn);
    }
    forall j: nat | j < |r.requisitions|
      ensures Resolves(r.requisitions[j].ebeln, OrderNumbers(r)) && Resolves(r.requisitions[j].rsnum, ReservationNumbers(r))
    {
      assert RequisitionLinked(j, r.requisitions[j], r.orderItems) && DemandLinked(j, r.requisitions[j], r.reservations);
      ReferenceFound(r, r.requisitions[j].ebeln);
      ReferenceFound(r, r.requisitions[j].rsnum);
    }
    forall i: nat | i < |r.reservations| ensures Resolves(r.reservations[i].banfn, RequisitionNumbers(r)) {
      assert ReservationLinked(i, r.reservations[i], r.requisitions);
      ReferenceFound(r, r.reservations[i].banfn);
    }
    forall i: nat | i < |r.movements|
      ensures Resolves(r.movements[i].ebeln, OrderNumbers(r)) && Resolves(r.movements[i].rsnum, ReservationNumbers(r))
    {
      assert MovementFits(r.movements[i], |r.orders|, |r.reservations|);
      ReferenceFound(r, r.movements[i].ebeln);
      ReferenceFound(r, r.movements[i].rsnum);
    }
  }

  lemma BatchesHold(t: Output)
    requires Finished(t)
    ensures BatchesReconcile(t)
  {
    hide WellFormed, Net;
    forall x | x in t.stock ensures -10 <= BatchTotal(t.batches, x.key) - x.labst <= 10 {
      var i :| 0 <= i < |t.stock| && t.stock[i] == x;
      StockRowIs(t, i);
    }
  }

  lemma {:induction false} RequisitionDated(s: seq<Requisition>, j: nat)
    requires forall i: nat | i < |s| :: s[i].banfn == PR_START + i
    requires j < |s|
    ensures PR_START + j in RequisitionDates(s) && RequisitionDates(s)[PR_START + j] == s[j].badat
  {
    if j < |s| - 1 {
      RequisitionDated(s[..|s| - 1], j);
    }
  }

  lemma {:induction false} OrderDated(s: seq<Order>, j: nat)
    requires forall i: nat | i < |s| :: s[i].ebeln == PO_START + i
    requires j < |s|
    ensures PO_START + j in OrderDates(s) && OrderDates(s)[PO_START + j] == s[j].aedat
  {
    if j < |s| - 1 {
      OrderDated(s[..|s| - 1], j);
    }
  }

  lemma ReceiptDated(r: Rows, k: nat)
    requires WellFormed(r) && k < |r.receipts|
    ensures r.receipts[k].ebeln in OrderDates(r.orders) && OrderDates(r.orders)[r.receipts[k].ebeln] <= r.receipts[k].budat
  {
    hide OrderDates, OrdersLinked, ReservationsLinked, KeysKnown, MovementsFit, HistoryAddsUp, OrdersAgree, Numbered;
    OrderNumbered(r);
    assert ReceiptFits(r.receipts[k], r.poItems, r.movements);
    hide WellFormed;
    OrderDated(r.orders, r.receipts[k].ebeln - PO_START);
  }

  lemma HeaderDated(r: Rows, i: nat)
    requires WellFormed(r) && i < |r.headers|
    ensures r.headers[i].budat <= AS_OF
  {
    hide OrdersAgree, OrdersLinked, ReservationsLinked, ReceiptsMatch, HistoryAddsUp, KeysKnown;
    assert MovementFits(r.movements[i], |r.orders|, |r.reservations|);
  }

  lemma DatesHold(r: Rows)
    requires WellFormed(r)
    ensures DatesInOrder(r)
  {
    hide WellFormed, OrderDates, RequisitionDates, ItemDated, AS_OF;
    OrderNumbered(r);
    var requested, ordered := RequisitionDates(r.requisitions), OrderDates(r.orders);
    forall i: nat | i < |r.orderItems|
      ensures ItemDated(r.orderItems[i], requested, ordered)
      ensures PO_START + i in ordered && ordered[PO_START + i] <= r.schedules[i].eindt
    {
      ItemDatedHolds(r, i);
    }
    forall k: nat | k < |r.receipts| ensures r.receipts[k].ebeln in ordered && ordered[r.receipts[k].ebeln] <= r.receipts[k].budat {
      ReceiptDated(r, k);
    }
    forall i: nat | i < |r.headers| ensures r.headers[i].budat <= AS_OF {
      HeaderDated(r, i);
    }
  }

  lemma ItemDatedHolds(r: Rows, i: nat)
    requires WellFormed(r) && i < |r.orderItems| == |r.orders| == |r.schedules|
    ensures ItemDated(r.orderItems[i], RequisitionDates(r.requisitions), OrderDates(r.orders))
    ensures PO_START + i in OrderDates(r.orders) && OrderDates(r.orders)[PO_START + i] <= r.schedules[i].eindt
  {
    hide WellFormed, OrderDates, RequisitionDates;
    OrderNumbered(r);
    ItemRequested(r, i);
    OrderDated(r.orders, i);
    if r.orderItems[i].banfn.Some? {
      RequisitionDated(r.requisitions, r.orderItems[i].banfn.value - PR_START);
    }
  }

  lemma ItemRequested(r: Rows, i: nat)
    requires WellFormed(r) && i < |r.orderItems| == |r.orders|
    ensures forall j: nat | j < |r.requisitions| :: r.requisitions[j].banfn == PR_START + j
    ensures var banfn := r.orderItems[i].banfn;
            banfn.Some? ==>
              0 <= banfn.value - PR_START < |r.requisitions| && r.requisitions[banfn.value - PR_START].badat <= r.orders[i].aedat
  {
    hide OrdersAgree, ReservationsLinked, ReceiptsMatch, HistoryAddsUp, MovementsFit, KeysKnown, RequisitionLinked;
    assert ItemLinked(i, r.orderItems[i], r.orders[i].aedat, r.requisitions);
  }

  lemma QuantitiesHold(t: Output)
    requires Finished(t)
    ensures QuantitiesSensible(t)
  {
    OrderNumbered(t.rows);
    hide OrdersAgree, OrdersLinked, ReservationsLinked, ReceiptsMatch, HistoryAddsUp, MovementsFit, KeysKnown, Net;
    hide BatchTotal;
    forall x | x in t.stock ensures x.labst >= 0 {
      var i :| 0 <= i < |t.stock| && t.stock[i] == x;
      StockRowIs(t, i);
    }
  }

  lemma StockHolds(t: Output)
    requires Finished(t)
    ensures StockReconciles(t)
  {
    hide WellFormed;
    forall x | x in t.held ensures x.onHand + x.quality == x.opening + Net(t.rows.movements, x.key) {
      var i :| 0 <= i < |t.held| && t.held[i] == x;
      StockRowIs(t, i);
    }
  }

  lemma FinishedIsWellFormed(t: Output)
    requires Finished(t)
    ensures WellFormed(t.rows)
  {
  }

  lemma FinishedIsConsistent(t: Output)
    requires Finished(t)
    ensures Consistent(t)
  {
    hide Finished, WellFormed, KeysUnique, StockReferences, MaterialReferences, ParentReferences, OptionalReferences;
    hide PlantsKnown, BatchesReconcile, DatesInOrder, QuantitiesSensible, StockReconciles;
    FinishedIsWellFormed(t);
    KeysHold(t);
    MaterialsHold(t);
    ParentsHold(t.rows);
    OptionalHold(t.rows);
    BatchesHold(t);
    DatesHold(t.rows);
    QuantitiesHold(t);
    StockHolds(t);
  }
}
