/** The tables in memory (data-generator/generate.py, `rows`, `po_items` and the counters) and their
    writers. */
module Tables {
  import opened Wrappers
  import opened Ledger

  class Dataset {
    const plants: set<PlantKey>
    var reservations: seq<Reservation>
    var requisitions: seq<Requisition>
    var orders: seq<Order>
    var orderItems: seq<OrderItem>
    var schedules: seq<Schedule>
    var poItems: seq<PoItem>
    var receipts: seq<Receipt>
    var headers: seq<Header>
    var movements: seq<Movement>
    var nextRes: nat
    var nextPr: nat
    var nextPo: nat
    var nextDoc: nat

    function Snapshot(): Rows
      reads this
    {
      Rows(plants, reservations, requisitions, orders, orderItems, schedules, poItems, receipts, headers, movements,
           nextRes, nextPr, nextPo, nextDoc)
    }

    constructor (plants: set<PlantKey>)
      ensures Snapshot() == NoDocuments(plants)
    {
      this.plants := plants;
      reservations, requisitions, orders, orderItems, schedules := [], [], [], [], [];
      poItems, receipts, headers, movements := [], [], [], [];
      nextRes, nextPr, nextPo, nextDoc := RES_START, PR_START, PO_START, DOC_START;
    }

    method PostMovement(key: PlantKey, bwart: MovementType, quantity: int, when: int, debit: bool,
                        ebeln: Option<nat>, rsnum: Option<nat>)
      returns (mblnr: nat)
      modifies `headers, `movements, `nextDoc
      ensures mblnr == old(nextDoc)
      ensures Snapshot() == Posted(old(Snapshot()), key, bwart, quantity, when, debit, ebeln, rsnum)
    {
      mblnr := nextDoc;
      nextDoc := nextDoc + 1;
      headers := headers + [Header(mblnr, when)];
      movements := movements + [Movement(mblnr, bwart, key, debit, quantity, when, ebeln, rsnum)];
    }

    /** Returns the row's place, so that the chain can complete it. */
    method CreateReservation(key: PlantKey, quantity: int) returns (reservation: nat)
      modifies `reservations, `nextRes
      ensures reservation == |old(reservations)|
      ensures Snapshot() == Reserved(old(Snapshot()), key, quantity)
    {
      reservation := |reservations|;
      reservations := reservations + [Reservation(nextRes, key, quantity, 0, None)];
      nextRes := nextRes + 1;
    }

    method CreateRequisition(key: PlantKey, quantity: int, badat: int, rsnum: Option<nat>) returns (requisition: nat)
      modifies `requisitions, `nextPr
      ensures requisition == |old(requisitions)|
      ensures Snapshot() == old(Snapshot()).(
                requisitions := old(requisitions) + [Requisition(old(nextPr), key, quantity, badat, None, rsnum)],
                nextPr := old(nextPr) + 1)
    {
      requisition := |requisitions|;
      requisitions := requisitions + [Requisition(nextPr, key, quantity, badat, None, rsnum)];
      nextPr := nextPr + 1;
    }

    /** Header, item and schedule line, and the requisition completed. */
    method CreateOrder(key: PlantKey, quantity: int, aedat: int, eindt: int, requisition: nat) returns (item: nat)
      requires requisition < |requisitions|
      modifies `orders, `poItems, `orderItems, `schedules, `requisitions, `nextPo
      ensures item == |old(poItems)| < |poItems|
      ensures Snapshot() == Ordered(old(Snapshot()), key, quantity, aedat, eindt, requisition)
    {
      var ebeln := nextPo;
      nextPo := nextPo + 1;
      orders := orders + [Order(ebeln, aedat)];
      item := |poItems|;
      poItems := poItems + [PoItem(ebeln, quantity, aedat, eindt, 0)];
      orderItems := orderItems + [OrderItem(ebeln, key, quantity, false, Some(requisitions[requisition].banfn))];
      schedules := schedules + [Schedule(ebeln, eindt, quantity, 0)];
      requisitions := requisitions[requisition := requisitions[requisition].(ebeln := Some(ebeln))];
    }

    /** The goods receipt in the order history, and the delivered quantity remembered on the item. */
    method Receive(item: nat, quantity: int, when: int, mblnr: nat)
      requires item < |poItems|
      modifies `receipts, `poItems
      ensures Snapshot() == old(Snapshot()).(
                receipts := old(receipts) + [Receipt(old(poItems)[item].ebeln, mblnr, when, quantity)],
                poItems := old(poItems)[item := old(poItems)[item].(received := old(poItems)[item].received + quantity)])
    {
      poItems := poItems[item := poItems[item].(received := poItems[item].received + quantity)];
      receipts := receipts + [Receipt(poItems[item].ebeln, mblnr, when, quantity)];
    }

    /** A movement against the order, and its receipt. */
    method PostReceipt(key: PlantKey, item: nat, quantity: int, when: int)
      requires item < |poItems|
      modifies `receipts, `poItems, `headers, `movements, `nextDoc
      ensures Snapshot() == Received(old(Snapshot()), key, item, quantity, when)
    {
      var mblnr := PostMovement(key, GrPo, quantity, when, true, Some(poItems[item].ebeln), None);
      Receive(item, quantity, when, mblnr);
    }
  }
}
