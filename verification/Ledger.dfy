/** The document tables of data-generator/generate.py (`rows`, `po_items` and the number ranges) and
    the five ways the generator adds to them. Each row keeps the fields the checks look at. */
module Ledger {
  import opened Wrappers
  import opened Calendar

  /** A material at a plant; the plant fixes the storage location. */
  datatype PlantKey = PlantKey(matnr: nat, werks: nat)

  datatype MovementType = GrPo | GiOrder | GiCostCentre | RepairRemoval

  datatype Movement = Movement(
    mblnr: nat, bwart: MovementType, key: PlantKey, debit: bool, menge: int, budat: int,
    ebeln: Option<nat>, rsnum: Option<nat>)

  datatype Header = Header(mblnr: nat, budat: int)

  datatype Reservation = Reservation(rsnum: nat, key: PlantKey, bdmng: int, enmng: int, banfn: Option<nat>)

  datatype Requisition = Requisition(
    banfn: nat, key: PlantKey, menge: int, badat: int, ebeln: Option<nat>, rsnum: Option<nat>)

  datatype Order = Order(ebeln: nat, aedat: int)

  datatype OrderItem = OrderItem(ebeln: nat, key: PlantKey, menge: int, elikz: bool, banfn: Option<nat>)

  datatype Schedule = Schedule(ebeln: nat, eindt: int, menge: int, wemng: int)

  /** A goods receipt in the order history. */
  datatype Receipt = Receipt(ebeln: nat, belnr: nat, budat: int, menge: int)

  datatype PoItem = PoItem(ebeln: nat, menge: int, aedat: int, eindt: int, received: int)

  const RES_START: nat := 1000000000
  const PR_START: nat := 2000000000
  const PO_START: nat := 4500000000
  const DOC_START: nat := 4900000000

  datatype Rows = Rows(
    plants: set<PlantKey>,
    reservations: seq<Reservation>, requisitions: seq<Requisition>, orders: seq<Order>,
    orderItems: seq<OrderItem>, schedules: seq<Schedule>, poItems: seq<PoItem>,
    receipts: seq<Receipt>, headers: seq<Header>, movements: seq<Movement>,
    nextRes: nat, nextPr: nat, nextPo: nat, nextDoc: nat)

  /** The tables before any document, over the material-plants built. */
  function NoDocuments(plants: set<PlantKey>): Rows {
    Rows(plants, [], [], [], [], [], [], [], [], [], RES_START, PR_START, PO_START, DOC_START)
  }

  // --- what each writer adds -----------------------------------------------------

  /** `post_movement`: a document header and its item. */
  function Posted(r: Rows, key: PlantKey, bwart: MovementType, menge: int, day: int, debit: bool,
                  ebeln: Option<nat>, rsnum: Option<nat>): Rows
  {
    r.(headers := r.headers + [Header(r.nextDoc, day)],
       movements := r.movements + [Movement(r.nextDoc, bwart, key, debit, menge, day, ebeln, rsnum)],
       nextDoc := r.nextDoc + 1)
  }

  function Reserved(r: Rows, key: PlantKey, menge: int): Rows {
    r.(reservations := r.reservations + [Reservation(r.nextRes, key, menge, 0, None)], nextRes := r.nextRes + 1)
  }

  /** `create_requisition`; for a chain, the reservation then gets the requisition's number. */
  function Requested(r: Rows, key: PlantKey, menge: int, badat: int, reservation: Option<nat>): Rows
    requires reservation.Some? ==> reservation.value < |r.reservations|
  {
    var rsnum := if reservation.Some? then Some(r.reservations[reservation.value].rsnum) else None;
    var s := r.(requisitions := r.requisitions + [Requisition(r.nextPr, key, menge, badat, None, rsnum)],
                nextPr := r.nextPr + 1);
    if reservation.Some? then
      var i := reservation.value;
      s.(reservations := s.reservations[i := s.reservations[i].(banfn := Some(r.nextPr))])
    else s
  }

  /** `create_order` for a requisition: header, item and schedule line, and the requisition completed. */
  function Ordered(r: Rows, key: PlantKey, menge: int, aedat: int, eindt: int, requisition: nat): Rows
    requires requisition < |r.requisitions|
  {
    var req := r.requisitions[requisition];
    r.(orders := r.orders + [Order(r.nextPo, aedat)],
       orderItems := r.orderItems + [OrderItem(r.nextPo, key, menge, false, Some(req.banfn))],
       schedules := r.schedules + [Schedule(r.nextPo, eindt, menge, 0)],
       poItems := r.poItems + [PoItem(r.nextPo, menge, aedat, eindt, 0)],
       requisitions := r.requisitions[requisition := req.(ebeln := Some(r.nextPo))],
       nextPo := r.nextPo + 1)
  }

  /** `post_movement` for a receipt followed by `receive`. */
  function Received(r: Rows, key: PlantKey, item: nat, menge: int, day: int): Rows
    requires item < |r.poItems|
  {
    var po := r.poItems[item];
    var s := Posted(r, key, GrPo, menge, day, true, Some(po.ebeln), None);
    s.(receipts := s.receipts + [Receipt(po.ebeln, r.nextDoc, day, menge)],
       poItems := s.poItems[item := po.(received := po.received + menge)])
  }

  // --- the documents fit together ---------------------------------------------------

  ghost predicate HeadersNumbered(headers: seq<Header>, movements: seq<Movement>) {
    && |headers| == |movements|
    && forall i: nat | i < |movements| ::
         headers[i].mblnr == movements[i].mblnr == DOC_START + i && headers[i].budat == movements[i].budat
  }

  ghost predicate ReservationsNumbered(reservations: seq<Reservation>) {
    forall i: nat | i < |reservations| :: reservations[i].rsnum == RES_START + i
  }

  ghost predicate RequisitionsNumbered(requisitions: seq<Requisition>) {
    forall i: nat | i < |requisitions| :: requisitions[i].banfn == PR_START + i && requisitions[i].menge > 0
  }

  ghost predicate Numbered(r: Rows) {
    && HeadersNumbered(r.headers, r.movements) && r.nextDoc == DOC_START + |r.headers|
    && ReservationsNumbered(r.reservations) && r.nextRes == RES_START + |r.reservations|
    && RequisitionsNumbered(r.requisitions) && r.nextPr == PR_START + |r.requisitions|
    && |r.orders| == |r.orderItems| == |r.schedules| == |r.poItems| && r.nextPo == PO_START + |r.orders|
  }

  /** Header, item, schedule line and running item of the order at place `i` agree; it is delivered
      after it is ordered, and received up to what was ordered. */
  ghost predicate OrderAgrees(i: nat, o: Order, item: OrderItem, line: Schedule, po: PoItem) {
    && o.ebeln == item.ebeln == line.ebeln == po.ebeln == PO_START + i
    && item.menge == line.menge == po.menge > 0
    && o.aedat == po.aedat <= AS_OF && po.aedat <= line.eindt == po.eindt
    && 0 <= po.received <= po.menge
  }

  ghost predicate OrdersAgree(orders: seq<Order>, items: seq<OrderItem>, lines: seq<Schedule>, pos: seq<PoItem>) {
    && |orders| == |items| == |lines| == |pos|
    && forall i: nat | i < |orders| :: OrderAgrees(i, orders[i], items[i], lines[i], pos[i])
  }

  /** The item's requisition exists, names the item's order and is not later than it. */
  ghost predicate ItemLinked(i: nat, item: OrderItem, aedat: int, requisitions: seq<Requisition>) {
    item.banfn.Some? ==>
      var j := item.banfn.value - PR_START;
      0 <= j < |requisitions| && requisitions[j].ebeln == Some(PO_START + i) && requisitions[j].badat <= aedat
  }

  /** The order a requisition names has an item that names the requisition. */
  ghost predicate RequisitionLinked(j: nat, req: Requisition, items: seq<OrderItem>) {
    req.ebeln.Some? ==>
      var i := req.ebeln.value - PO_START;
      0 <= i < |items| && items[i].banfn == Some(PR_START + j)
  }

  /** Order items and requisitions point at each other, and the requisition is not later than the order. */
  ghost predicate OrdersLinked(orders: seq<Order>, items: seq<OrderItem>, requisitions: seq<Requisition>) {
    && |orders| == |items|
    && (forall i: nat | i < |items| :: ItemLinked(i, items[i], orders[i].aedat, requisitions))
    && forall j: nat | j < |requisitions| :: RequisitionLinked(j, requisitions[j], items)
  }

  ghost predicate ReservationLinked(i: nat, res: Reservation, requisitions: seq<Requisition>) {
    res.banfn.Some? ==>
      var j := res.banfn.value - PR_START;
      0 <= j < |requisitions| && requisitions[j].rsnum == Some(RES_START + i)
  }

  ghost predicate DemandLinked(j: nat, req: Requisition, reservations: seq<Reservation>) {
    req.rsnum.Some? ==>
      var i := req.rsnum.value - RES_START;
      0 <= i < |reservations| && reservations[i].banfn == Some(PR_START + j)
  }

  /** Reservations and requisitions point at each other. */
  ghost predicate ReservationsLinked(reservations: seq<Reservation>, requisitions: seq<Requisition>) {
    && (forall i: nat | i < |reservations| :: ReservationLinked(i, reservations[i], requisitions))
    && forall j: nat | j < |requisitions| :: DemandLinked(j, requisitions[j], reservations)
  }

  /** The receipt's order is one of `pos`, received in full by it, not before the order and not after
      the as-of date; its document is the movement posted for that order. */
  ghost predicate ReceiptFits(k: Receipt, pos: seq<PoItem>, movements: seq<Movement>) {
    var i, d := k.ebeln - PO_START, k.belnr - DOC_START;
    && 0 <= i < |pos| && pos[i].aedat <= k.budat <= AS_OF && pos[i].received == k.menge > 0
    && 0 <= d < |movements| && movements[d].budat == k.budat && movements[d].menge == k.menge
    && movements[d].debit && movements[d].ebeln == Some(k.ebeln)
  }

  /** Each receipt fits, and each order is received at most once. */
  ghost predicate ReceiptsMatch(receipts: seq<Receipt>, pos: seq<PoItem>, movements: seq<Movement>) {
    && (forall k: nat | k < |receipts| :: ReceiptFits(receipts[k], pos, movements))
    && forall k: nat, l: nat | k < l < |receipts| :: receipts[k].ebeln != receipts[l].ebeln
  }

  /** What the goods receipts in the history add up to for an order. */
  function ReceiptTotal(receipts: seq<Receipt>, ebeln: nat): int {
    if receipts == [] then 0
    else
      var last := receipts[|receipts| - 1];
      ReceiptTotal(receipts[..|receipts| - 1], ebeln) + if last.ebeln == ebeln then last.menge else 0
  }

  /** What an order has received is what its history adds up to. */
  ghost predicate HistoryAddsUp(receipts: seq<Receipt>, pos: seq<PoItem>) {
    forall i: nat | i < |pos| :: pos[i].received == ReceiptTotal(receipts, PO_START + i)
  }

  ghost predicate MovementFits(m: Movement, orders: nat, reservations: nat) {
    && m.menge > 0 && m.budat <= AS_OF
    && (m.ebeln.Some? ==> 0 <= m.ebeln.value - PO_START < orders)
    && (m.rsnum.Some? ==> 0 <= m.rsnum.value - RES_START < reservations)
  }

  ghost predicate MovementsFit(movements: seq<Movement>, orders: nat, reservations: nat) {
    forall i: nat | i < |movements| :: MovementFits(movements[i], orders, reservations)
  }

  /** Every document is for a material-plant that was built. */
  ghost predicate KeysKnown(r: Rows) {
    && (forall i: nat | i < |r.reservations| :: r.reservations[i].key in r.plants)
    && (forall i: nat | i < |r.requisitions| :: r.requisitions[i].key in r.plants)
    && (forall i: nat | i < |r.orderItems| :: r.orderItems[i].key in r.plants)
    && (forall i: nat | i < |r.movements| :: r.movements[i].key in r.plants)
  }

  ghost predicate WellFormed(r: Rows) {
    && Numbered(r)
    && KeysKnown(r)
    && OrdersAgree(r.orders, r.orderItems, r.schedules, r.poItems)
    && OrdersLinked(r.orders, r.orderItems, r.requisitions)
    && ReservationsLinked(r.reservations, r.requisitions)
    && ReceiptsMatch(r.receipts, r.poItems, r.movements)
    && HistoryAddsUp(r.receipts, r.poItems)
    && MovementsFit(r.movements, |r.orders|, |r.reservations|)
  }

  lemma EmptyIsWellFormed(plants: set<PlantKey>)
    ensures WellFormed(NoDocuments(plants))
  {
  }

  lemma SameLengths(r: Rows)
    requires WellFormed(r)
    ensures |r.orders| == |r.orderItems| == |r.schedules| == |r.poItems|
    ensures r.nextRes == RES_START + |r.reservations| && r.nextPr == PR_START + |r.requisitions| && r.nextPo == PO_START + |r.orders|
  {
  }

  lemma ReceiptsMatchMore(receipts: seq<Receipt>, pos: seq<PoItem>, movements: seq<Movement>,
                          morePos: seq<PoItem>, moreMovements: seq<Movement>)
    requires ReceiptsMatch(receipts, pos, movements)
    ensures ReceiptsMatch(receipts, pos + morePos, movements + moreMovements)
  {
    forall k: nat | k < |receipts| ensures ReceiptFits(receipts[k], pos + morePos, movements + moreMovements) {
      assert ReceiptFits(receipts[k], pos, movements);
    }
  }

  lemma MovementsFitMore(movements: seq<Movement>, orders: nat, reservations: nat, moreOrders: nat, moreReservations: nat)
    requires MovementsFit(movements, orders, reservations)
    ensures MovementsFit(movements, orders + moreOrders, reservations + moreReservations)
  {
    forall i: nat | i < |movements|
      ensures MovementFits(movements[i], orders + moreOrders, reservations + moreReservations)
    {
      assert MovementFits(movements[i], orders, reservations);
    }
  }

  lemma PostedKeeps(r: Rows, key: PlantKey, bwart: MovementType, menge: int, day: int, debit: bool,
                    ebeln: Option<nat>, rsnum: Option<nat>)
    requires WellFormed(r) && key in r.plants && menge > 0 && day <= AS_OF
    requires ebeln.Some? ==> 0 <= ebeln.value - PO_START < |r.orders|
    requires rsnum.Some? ==> 0 <= rsnum.value - RES_START < |r.reservations|
    ensures WellFormed(Posted(r, key, bwart, menge, day, debit, ebeln, rsnum))
  {
    hide HistoryAddsUp, OrdersAgree, OrdersLinked, ReservationsLinked, ReceiptsMatch, ReservationsNumbered;
    hide RequisitionsNumbered;
    var m := Movement(r.nextDoc, bwart, key, debit, menge, day, ebeln, rsnum);
    ReceiptsMatchMore(r.receipts, r.poItems, r.movements, [], [m]);
    assert r.poItems + [] == r.poItems;
  }

  lemma ReservedKeeps(r: Rows, key: PlantKey, menge: int)
    requires WellFormed(r) && key in r.plants
    ensures WellFormed(Reserved(r, key, menge))
  {
    hide HistoryAddsUp, OrdersAgree, OrdersLinked, ReceiptsMatch, MovementsFit, HeadersNumbered, RequisitionsNumbered;
    MovementsFitMore(r.movements, |r.orders|, |r.reservations|, 0, 1);
  }

  lemma RequestedKeeps(r: Rows, key: PlantKey, menge: int, badat: int, reservation: Option<nat>)
    requires WellFormed(r) && key in r.plants && menge > 0
    requires reservation.Some? ==> reservation.value < |r.reservations| && r.reservations[reservation.value].banfn == None
    ensures WellFormed(Requested(r, key, menge, badat, reservation))
  {
    hide HistoryAddsUp, OrdersAgree, OrdersLinked, ReservationsLinked, ReceiptsMatch, MovementsFit, HeadersNumbered;
    var rsnum := if reservation.Some? then Some(r.reservations[reservation.value].rsnum) else None;
    var req := Requisition(r.nextPr, key, menge, badat, None, rsnum);
    UnorderedRequisition(r.orders, r.orderItems, r.requisitions, req);
    if reservation.Some? {
      ReservedRequisition(r.reservations, r.requisitions, req, reservation.value);
    } else {
      LooseRequisition(r.reservations, r.requisitions, req);
    }
  }

  lemma UnorderedRequisition(orders: seq<Order>, items: seq<OrderItem>, requisitions: seq<Requisition>, req: Requisition)
    requires OrdersLinked(orders, items, requisitions) && req.ebeln == None
    ensures OrdersLinked(orders, items, requisitions + [req])
  {
    hide ItemLinked;
    forall i: nat | i < |items| ensures ItemLinked(i, items[i], orders[i].aedat, requisitions + [req]) {
      ItemLinkedMore(i, items[i], orders[i].aedat, requisitions, req);
    }
  }

  lemma ItemLinkedMore(i: nat, item: OrderItem, aedat: int, requisitions: seq<Requisition>, req: Requisition)
    requires ItemLinked(i, item, aedat, requisitions)
    ensures ItemLinked(i, item, aedat, requisitions + [req])
  {
  }

  lemma ReservationLinkedMore(i: nat, res: Reservation, requisitions: seq<Requisition>, req: Requisition)
    requires ReservationLinked(i, res, requisitions)
    ensures ReservationLinked(i, res, requisitions + [req])
  {
  }

  lemma LooseRequisition(reservations: seq<Reservation>, requisitions: seq<Requisition>, req: Requisition)
    requires ReservationsLinked(reservations, requisitions) && req.rsnum == None
    ensures ReservationsLinked(reservations, requisitions + [req])
  {
    hide ReservationLinked;
    forall i: nat | i < |reservations| ensures ReservationLinked(i, reservations[i], requisitions + [req]) {
      ReservationLinkedMore(i, reservations[i], requisitions, req);
    }
  }

  lemma ReservedRequisition(reservations: seq<Reservation>, requisitions: seq<Requisition>, req: Requisition, i: nat)
    requires ReservationsLinked(reservations, requisitions)
    requires i < |reservations| && reservations[i].banfn == None && req.rsnum == Some(RES_START + i)
    ensures ReservationsLinked(reservations[i := reservations[i].(banfn := Some(PR_START + |requisitions|))], requisitions + [req])
  {
    hide ReservationLinked, DemandLinked;
    var n := |requisitions|;
    var res := reservations[i].(banfn := Some(PR_START + n));
    var after, more := reservations[i := res], requisitions + [req];
    forall k: nat | k < |after| ensures ReservationLinked(k, after[k], more) {
      if k == i {
        NewPair(i, res, n, req, requisitions, after);
      } else {
        ReservationLinkedMore(k, reservations[k], requisitions, req);
      }
    }
    forall k: nat | k < |more| ensures DemandLinked(k, more[k], after) {
      if k == n {
        NewPair(i, res, n, req, requisitions, after);
      } else {
        DemandKept(k, requisitions[k], reservations, i, res);
      }
    }
  }

  lemma NewPair(i: nat, res: Reservation, n: nat, req: Requisition, requisitions: seq<Requisition>,
                reservations: seq<Reservation>)
    requires n == |requisitions| && res.banfn == Some(PR_START + n) && req.rsnum == Some(RES_START + i)
    requires i < |reservations| && reservations[i] == res
    ensures ReservationLinked(i, res, requisitions + [req]) && DemandLinked(n, req, reservations)
  {
  }

  lemma DemandKept(j: nat, req: Requisition, reservations: seq<Reservation>, i: nat, res: Reservation)
    requires DemandLinked(j, req, reservations) && i < |reservations| && reservations[i].banfn == None
    ensures DemandLinked(j, req, reservations[i := res])
  {
  }

  lemma OrderedKeeps(r: Rows, key: PlantKey, menge: int, aedat: int, eindt: int, requisition: nat)
    requires WellFormed(r) && key in r.plants && menge > 0 && requisition < |r.requisitions|
    requires r.requisitions[requisition].ebeln == None && r.requisitions[requisition].badat <= aedat <= AS_OF && aedat <= eindt
    ensures WellFormed(Ordered(r, key, menge, aedat, eindt, requisition))
  {
    hide HistoryAddsUp, OrdersAgree, OrdersLinked, ReservationsLinked, ReceiptsMatch, MovementsFit, HeadersNumbered;
    hide ReservationsNumbered;
    var req := r.requisitions[requisition];
    var po := PoItem(r.nextPo, menge, aedat, eindt, 0);
    ReceiptsMatchMore(r.receipts, r.poItems, r.movements, [po], []);
    assert r.movements + [] == r.movements;
    MovementsFitMore(r.movements, |r.orders|, |r.reservations|, 1, 0);
    var item := OrderItem(r.nextPo, key, menge, false, Some(req.banfn));
    OneMoreOrder(r.orders, r.orderItems, r.schedules, r.poItems, Order(r.nextPo, aedat), item,
                 Schedule(r.nextPo, eindt, menge, 0), po);
    LinkOrder(r.orders, r.orderItems, r.requisitions, Order(r.nextPo, aedat), item, requisition);
    LinksIgnoreOrder(r.reservations, r.requisitions, requisition, Some(r.nextPo));
    HistoryOfNewOrder(r.receipts, r.poItems, r.movements, po);
  }

  lemma HistoryOfNewOrder(receipts: seq<Receipt>, pos: seq<PoItem>, movements: seq<Movement>, po: PoItem)
    requires ReceiptsMatch(receipts, pos, movements) && HistoryAddsUp(receipts, pos) && po.received == 0
    ensures HistoryAddsUp(receipts, pos + [po])
  {
    forall k: nat | k < |receipts| ensures receipts[k].ebeln != PO_START + |pos| {
      assert ReceiptFits(receipts[k], pos, movements);
    }
    NothingReceived(receipts, PO_START + |pos|);
  }

  lemma {:induction false} NothingReceived(receipts: seq<Receipt>, ebeln: nat)
    requires forall k: nat | k < |receipts| :: receipts[k].ebeln != ebeln
    ensures ReceiptTotal(receipts, ebeln) == 0
  {
    if receipts != [] {
      NothingReceived(receipts[..|receipts| - 1], ebeln);
    }
  }

  lemma HistoryOfReceipt(receipts: seq<Receipt>, pos: seq<PoItem>, item: nat, k: Receipt)
    requires HistoryAddsUp(receipts, pos) && item < |pos| && k.ebeln == PO_START + item
    ensures HistoryAddsUp(receipts + [k], pos[item := pos[item].(received := pos[item].received + k.menge)])
  {
    assert (receipts + [k])[..|receipts|] == receipts;
  }

  lemma OneMoreOrder(orders: seq<Order>, items: seq<OrderItem>, lines: seq<Schedule>, pos: seq<PoItem>,
                     o: Order, item: OrderItem, line: Schedule, po: PoItem)
    requires OrdersAgree(orders, items, lines, pos) && OrderAgrees(|orders|, o, item, line, po)
    ensures OrdersAgree(orders + [o], items + [item], lines + [line], pos + [po])
  {
    hide OrderAgrees;
  }

  lemma LinkOrder(orders: seq<Order>, items: seq<OrderItem>, requisitions: seq<Requisition>, o: Order, item: OrderItem, j: nat)
    requires OrdersLinked(orders, items, requisitions) && j < |requisitions|
    requires requisitions[j].ebeln == None && requisitions[j].badat <= o.aedat && item.banfn == Some(PR_START + j)
    ensures OrdersLinked(orders + [o], items + [item], requisitions[j := requisitions[j].(ebeln := Some(PO_START + |orders|))])
  {
    hide ItemLinked, RequisitionLinked;
    var n := |items|;
    var req := requisitions[j].(ebeln := Some(PO_START + n));
    var after := requisitions[j := req];
    var os, more := orders + [o], items + [item];
    NewOrderPair(n, item, o.aedat, j, req, after, more);
    forall i: nat | i < |more| ensures ItemLinked(i, more[i], os[i].aedat, after) {
      if i < n {
        assert ItemLinked(i, items[i], orders[i].aedat, requisitions);
        ItemKept(i, items[i], orders[i].aedat, requisitions, j, req);
      }
    }
    forall k: nat | k < |after| ensures RequisitionLinked(k, after[k], more) {
      if k != j {
        assert RequisitionLinked(k, requisitions[k], items);
        RequisitionKept(k, requisitions[k], items, item);
      }
    }
  }

  lemma NewOrderPair(n: nat, item: OrderItem, aedat: int, j: nat, req: Requisition, requisitions: seq<Requisition>,
                     items: seq<OrderItem>)
    requires j < |requisitions| && requisitions[j] == req && n < |items| && items[n] == item
    requires item.banfn == Some(PR_START + j) && req.ebeln == Some(PO_START + n) && req.badat <= aedat
    ensures ItemLinked(n, item, aedat, requisitions) && RequisitionLinked(j, req, items)
  {
  }

  lemma ItemKept(i: nat, item: OrderItem, aedat: int, requisitions: seq<Requisition>, j: nat, req: Requisition)
    requires ItemLinked(i, item, aedat, requisitions) && j < |requisitions| && requisitions[j].ebeln == None
    ensures ItemLinked(i, item, aedat, requisitions[j := req])
  {
  }

  lemma RequisitionKept(k: nat, req: Requisition, items: seq<OrderItem>, item: OrderItem)
    requires RequisitionLinked(k, req, items)
    ensures RequisitionLinked(k, req, items + [item])
  {
  }

  lemma LinksIgnoreOrder(reservations: seq<Reservation>, requisitions: seq<Requisition>, j: nat, ebeln: Option<nat>)
    requires ReservationsLinked(reservations, requisitions) && j < |requisitions|
    ensures ReservationsLinked(reservations, requisitions[j := requisitions[j].(ebeln := ebeln)])
  {
    hide ReservationLinked;
    var after := requisitions[j := requisitions[j].(ebeln := ebeln)];
    forall i: nat | i < |reservations| ensures ReservationLinked(i, reservations[i], after) {
      assert ReservationLinked(i, reservations[i], requisitions);
      ReservationIgnoresOrder(i, reservations[i], requisitions, j, ebeln);
    }
    forall k: nat | k < |after| ensures DemandLinked(k, after[k], reservations) {
      assert DemandLinked(k, requisitions[k], reservations);
    }
  }

  lemma ReservationIgnoresOrder(i: nat, res: Reservation, requisitions: seq<Requisition>, j: nat, ebeln: Option<nat>)
    requires ReservationLinked(i, res, requisitions) && j < |requisitions|
    ensures ReservationLinked(i, res, requisitions[j := requisitions[j].(ebeln := ebeln)])
  {
  }

  lemma ReceivedKeeps(r: Rows, key: PlantKey, item: nat, menge: int, day: int)
    requires WellFormed(r) && key in r.plants && item < |r.poItems| && r.poItems[item].received == 0
    requires 0 < menge <= r.poItems[item].menge && r.poItems[item].aedat <= day <= AS_OF
    ensures WellFormed(Received(r, key, item, menge, day))
  {
    hide WellFormed;
    var po := r.poItems[item];
    OrderNumberOf(r, item);
    PostedKeeps(r, key, GrPo, menge, day, true, Some(po.ebeln), None);
    var s := Posted(r, key, GrPo, menge, day, true, Some(po.ebeln), None);
    ReceiveKeeps(s, item, menge, Receipt(po.ebeln, r.nextDoc, day, menge));
  }

  lemma OrderNumberOf(r: Rows, item: nat)
    requires WellFormed(r) && item < |r.poItems|
    ensures |r.orders| == |r.poItems| && r.poItems[item].ebeln == PO_START + item
  {
    assert OrderAgrees(item, r.orders[item], r.orderItems[item], r.schedules[item], r.poItems[item]);
  }

  /** `receive`, once the movement has been posted. */
  lemma ReceiveKeeps(s: Rows, item: nat, menge: int, k: Receipt)
    requires WellFormed(s) && item < |s.poItems| && s.poItems[item].received == 0 && s.movements != []
    requires var m := s.movements[|s.movements| - 1];
             k == Receipt(s.poItems[item].ebeln, m.mblnr, m.budat, menge) && m.menge == menge && m.debit && m.ebeln == Some(k.ebeln)
    requires 0 < menge <= s.poItems[item].menge && s.poItems[item].aedat <= k.budat <= AS_OF
    ensures WellFormed(s.(receipts := s.receipts + [k],
                          poItems := s.poItems[item := s.poItems[item].(received := s.poItems[item].received + menge)]))
  {
    hide HistoryAddsUp, OrdersLinked, ReservationsLinked, MovementsFit, ReservationsNumbered, RequisitionsNumbered;
    var po := s.poItems[item];
    var pos := s.poItems[item := po.(received := po.received + menge)];
    assert OrderAgrees(item, s.orders[item], s.orderItems[item], s.schedules[item], po);
    OneReceived(s.orders, s.orderItems, s.schedules, s.poItems, item, menge);
    NotReceivedBefore(s.receipts, s.poItems, s.movements, item);
    forall j: nat | j < |s.receipts| ensures ReceiptFits(s.receipts[j], pos, s.movements) {
      assert ReceiptFits(s.receipts[j], s.poItems, s.movements);
    }
    assert ReceiptFits(k, pos, s.movements);
    HistoryOfReceipt(s.receipts, s.poItems, item, k);
  }

  lemma OneReceived(orders: seq<Order>, items: seq<OrderItem>, lines: seq<Schedule>, pos: seq<PoItem>, item: nat, menge: int)
    requires OrdersAgree(orders, items, lines, pos) && item < |pos|
    requires pos[item].received == 0 && 0 < menge <= pos[item].menge
    ensures OrdersAgree(orders, items, lines, pos[item := pos[item].(received := pos[item].received + menge)])
  {
    var after := pos[item := pos[item].(received := pos[item].received + menge)];
    forall i: nat | i < |orders| ensures OrderAgrees(i, orders[i], items[i], lines[i], after[i]) {
      assert OrderAgrees(i, orders[i], items[i], lines[i], pos[i]);
    }
  }

  lemma NotReceivedBefore(receipts: seq<Receipt>, pos: seq<PoItem>, movements: seq<Movement>, item: nat)
    requires ReceiptsMatch(receipts, pos, movements) && item < |pos| && pos[item].received == 0
    ensures forall k: nat | k < |receipts| :: receipts[k].ebeln != PO_START + item
  {
    forall k: nat | k < |receipts| ensures receipts[k].ebeln != PO_START + item {
      assert ReceiptFits(receipts[k], pos, movements);
    }
  }
}
