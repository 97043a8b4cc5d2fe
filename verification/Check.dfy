/** The consistency checks over the finished tables (data-generator/generate.py, `check`): what each
    section accepts, and that it counts no problem exactly then. */
module Check {
  import opened Wrappers
  import opened Calendar
  import opened Ledger
  import opened Balances
  import opened Sequences
  import opened Closing

  /** A material-plant as the last check sees it. */
  datatype Held = Held(key: PlantKey, opening: int, onHand: int, quality: int)

  datatype Output = Output(rows: Rows, stock: seq<StockRow>, batches: seq<Batch>, held: seq<Held>, codes: set<nat>)

  // --- columns -----------------------------------------------------------------------------

  function ReservationNumbers(r: Rows): seq<nat> { seq(|r.reservations|,
                              i requires 0 <= i < |r.reservations| => r.reservations[i].rsnum) }

  function RequisitionNumbers(r: Rows): seq<nat> { seq(|r.requisitions|,
                              i requires 0 <= i < |r.requisitions| => r.requisitions[i].banfn) }

  function OrderNumbers(r: Rows): seq<nat> { seq(|r.orders|, i requires 0 <= i < |r.orders| => r.orders[i].ebeln) }

  function ItemNumbers(r: Rows): seq<nat> { seq(|r.orderItems|, i requires 0 <= i < |r.orderItems| => r.orderItems[i].ebeln) }

  function LineNumbers(r: Rows): seq<nat> { seq(|r.schedules|, i requires 0 <= i < |r.schedules| => r.schedules[i].ebeln) }

  function ReceiptNumbers(r: Rows): seq<(nat, nat)> {
    seq(|r.receipts|, i requires 0 <= i < |r.receipts| => (r.receipts[i].ebeln, r.receipts[i].belnr))
  }

  function DocumentNumbers(r: Rows): seq<nat> { seq(|r.headers|, i requires 0 <= i < |r.headers| => r.headers[i].mblnr) }

  function MovementNumbers(r: Rows): seq<nat> { seq(|r.movements|, i requires 0 <= i < |r.movements| => r.movements[i].mblnr) }

  function StockKeys(stock: seq<StockRow>): seq<PlantKey> { seq(|stock|, i requires 0 <= i < |stock| => stock[i].key) }

  function BatchKeys(batches: seq<Batch>): seq<(PlantKey, nat)> {
    seq(|batches|, i requires 0 <= i < |batches| => (batches[i].key, batches[i].charg))
  }

  function Materials(plants: set<PlantKey>): set<nat> {
    set p | p in plants :: p.matnr
  }

  function Range<K>(s: seq<K>): set<K> {
    set x | x in s
  }

  predicate Resolves(reference: Option<nat>, numbers: seq<nat>) {
    reference.Some? ==> reference.value in numbers
  }

  /** Requisition dates by number; a later row overrides an earlier one. */
  function RequisitionDates(s: seq<Requisition>): map<nat, int> {
    if s == [] then map[] else RequisitionDates(s[..|s| - 1])[s[|s| - 1].banfn := s[|s| - 1].badat]
  }

  function OrderDates(s: seq<Order>): map<nat, int> {
    if s == [] then map[] else OrderDates(s[..|s| - 1])[s[|s| - 1].ebeln := s[|s| - 1].aedat]
  }

  // --- the sections --------------------------------------------------------------------------

  ghost predicate KeysUnique(t: Output) {
    && NoRepeats(ReservationNumbers(t.rows)) && NoRepeats(RequisitionNumbers(t.rows)) && NoRepeats(OrderNumbers(t.rows))
    && NoRepeats(ItemNumbers(t.rows)) && NoRepeats(LineNumbers(t.rows)) && NoRepeats(ReceiptNumbers(t.rows))
    && NoRepeats(DocumentNumbers(t.rows)) && NoRepeats(MovementNumbers(t.rows))
    && NoRepeats(StockKeys(t.stock)) && NoRepeats(BatchKeys(t.batches))
  }

  predicate StockReferences(t: Output) {
    && (forall x | x in t.stock :: x.key in t.rows.plants)
    && (forall x | x in t.batches :: x.key in t.rows.plants)
  }

  predicate MaterialReferences(r: Rows) {
    && (forall x | x in r.reservations :: x.key.matnr in Materials(r.plants))
    && (forall x | x in r.requisitions :: x.key.matnr in Materials(r.plants))
    && (forall x | x in r.orderItems :: x.key.matnr in Materials(r.plants))
    && (forall x | x in r.movements :: x.key.matnr in Materials(r.plants))
  }

  predicate ParentReferences(r: Rows) {
    && (forall x | x in r.orderItems :: x.ebeln in OrderNumbers(r))
    && (forall x | x in r.schedules :: x.ebeln in ItemNumbers(r))
    && (forall x | x in r.receipts :: x.ebeln in ItemNumbers(r))
    && (forall x | x in r.movements :: x.mblnr in DocumentNumbers(r))
  }

  /** References that are there only where the chain got that far. */
  predicate OptionalReferences(r: Rows) {
    && (forall x | x in r.orderItems :: Resolves(x.banfn, RequisitionNumbers(r)))
    && (forall x | x in r.requisitions :: Resolves(x.ebeln, OrderNumbers(r)) && Resolves(x.rsnum, ReservationNumbers(r)))
    && (forall x | x in r.reservations :: Resolves(x.banfn, RequisitionNumbers(r)))
    && (forall x | x in r.movements :: Resolves(x.ebeln, OrderNumbers(r)) && Resolves(x.rsnum, ReservationNumbers(r)))
  }

  predicate PlantsKnown(t: Output) {
    && (forall x | x in t.stock :: x.key.werks in t.codes)
    && (forall x | x in t.batches :: x.key.werks in t.codes)
    && (forall x | x in t.rows.orderItems :: x.key.werks in t.codes)
    && (forall x | x in t.rows.movements :: x.key.werks in t.codes)
    && (forall x | x in t.rows.reservations :: x.key.werks in t.codes)
    && (forall x | x in t.rows.requisitions :: x.key.werks in t.codes)
  }

  /** Batches add up to the stock they were split from, give or take a hundredth of a unit. */
  predicate BatchesReconcile(t: Output) {
    forall x | x in t.stock :: -10 <= BatchTotal(t.batches, x.key) - x.labst <= 10
  }

  predicate ItemDated(item: OrderItem, requested: map<nat, int>, ordered: map<nat, int>) {
    item.banfn.Some? ==>
      item.ebeln in ordered && (item.banfn.value in requested ==> requested[item.banfn.value] <= ordered[item.ebeln])
  }

  /** Requisition before order before receipt, and nothing posted in the future. An order number that is
      not there, on which the original stops with an error, is not accepted either. */
  predicate DatesInOrder(r: Rows) {
    var requested, ordered := RequisitionDates(r.requisitions), OrderDates(r.orders);
    && (forall x | x in r.orderItems :: ItemDated(x, requested, ordered))
    && (forall x | x in r.schedules :: x.ebeln in ordered && ordered[x.ebeln] <= x.eindt)
    && (forall x | x in r.receipts :: x.ebeln in ordered && ordered[x.ebeln] <= x.budat)
    && (forall x | x in r.headers :: x.budat <= AS_OF)
  }

  predicate QuantitiesSensible(t: Output) {
    && (forall x | x in t.rows.orderItems :: x.menge > 0)
    && (forall x | x in t.rows.requisitions :: x.menge > 0)
    && (forall x | x in t.rows.schedules :: x.wemng <= x.menge)
    && (forall x | x in t.stock :: x.labst >= 0)
  }

  /** Closing stock is opening stock plus receipts minus issues. */
  predicate StockReconciles(t: Output) {
    forall x | x in t.held :: x.onHand + x.quality == x.opening + Net(t.rows.movements, x.key)
  }

  ghost predicate Consistent(t: Output) {
    && KeysUnique(t)
    && StockReferences(t) && MaterialReferences(t.rows) && ParentReferences(t.rows) && OptionalReferences(t.rows)
    && PlantsKnown(t) && BatchesReconcile(t) && DatesInOrder(t.rows) && QuantitiesSensible(t) && StockReconciles(t)
  }

  // --- counting problems -------------------------------------------------------------------

  method CountRepeats<K(==)>(keys: seq<K>) returns (problems: nat)
    ensures problems == 0 <==> NoRepeats(keys)
  {
    problems := 0;
    var seen: set<K> := {};
    for i := 0 to |keys|
      invariant forall x :: x in seen <==> x in keys[..i]
      invariant problems == 0 <==> NoRepeats(keys[..i])
    {
      assert keys[..i + 1] == keys[..i] + [keys[i]];
      if keys[i] in seen {
        problems := problems + 1;
        var j :| 0 <= j < i && keys[j] == keys[i];
        assert keys[..i + 1][j] == keys[..i + 1][i];
      }
      if NoRepeats(keys[..i + 1]) {
        assert forall j, k | 0 <= j < k < i :: keys[..i][j] == keys[..i + 1][j] && keys[..i][k] == keys[..i + 1][k];
      }
      seen := seen + {keys[i]};
    }
    assert keys[..|keys|] == keys;
  }

  method CountFailing<T>(items: seq<T>, accepts: T -> bool) returns (problems: nat)
    ensures problems == 0 <==> forall x | x in items :: accepts(x)
  {
    problems := 0;
    for i := 0 to |items|
      invariant problems == 0 <==> forall k | 0 <= k < i :: accepts(items[k])
    {
      if !accepts(items[i]) {
        problems := problems + 1;
      }
    }
  }

  method CheckKeys(t: Output) returns (problems: nat)
    ensures problems == 0 <==> KeysUnique(t)
  {
    hide NoRepeats;
    var a := CountRepeats(ReservationNumbers(t.rows));
    var b := CountRepeats(RequisitionNumbers(t.rows));
    var c := CountRepeats(OrderNumbers(t.rows));
    var d := CountRepeats(ItemNumbers(t.rows));
    var e := CountRepeats(LineNumbers(t.rows));
    var f := CountRepeats(ReceiptNumbers(t.rows));
    var g := CountRepeats(DocumentNumbers(t.rows));
    var h := CountRepeats(MovementNumbers(t.rows));
    var i := CountRepeats(StockKeys(t.stock));
    var j := CountRepeats(BatchKeys(t.batches));
    problems := a + b + c + d + e + f + g + h + i + j;
  }

  method CheckMaterials(t: Output) returns (problems: nat)
    ensures problems == 0 <==> StockReferences(t) && MaterialReferences(t.rows)
  {
    var materials := Materials(t.rows.plants);
    var a := CountFailing(t.stock, (x: StockRow) => x.key in t.rows.plants);
    var b := CountFailing(t.batches, (x: Batch) => x.key in t.rows.plants);
    var c := CountFailing(t.rows.reservations, (x: Reservation) => x.key.matnr in materials);
    var d := CountFailing(t.rows.requisitions, (x: Requisition) => x.key.matnr in materials);
    var e := CountFailing(t.rows.orderItems, (x: OrderItem) => x.key.matnr in materials);
    var f := CountFailing(t.rows.movements, (x: Movement) => x.key.matnr in materials);
    problems := a + b + c + d + e + f;
  }

  method CheckParents(r: Rows) returns (problems: nat)
    ensures problems == 0 <==> ParentReferences(r)
  {
    var orders, items, documents := Range(OrderNumbers(r)), Range(ItemNumbers(r)), Range(DocumentNumbers(r));
    var a := CountFailing(r.orderItems, (x: OrderItem) => x.ebeln in orders);
    var b := CountFailing(r.schedules, (x: Schedule) => x.ebeln in items);
    var c := CountFailing(r.receipts, (x: Receipt) => x.ebeln in items);
    var d := CountFailing(r.movements, (x: Movement) => x.mblnr in documents);
    problems := a + b + c + d;
  }

  method CheckOptional(r: Rows) returns (problems: nat)
    ensures problems == 0 <==> OptionalReferences(r)
  {
    var orders, requisitions, reservations := OrderNumbers(r), RequisitionNumbers(r), ReservationNumbers(r);
    var a := CountFailing(r.orderItems, (x: OrderItem) => Resolves(x.banfn, requisitions));
    var b := CountFailing(r.requisitions, (x: Requisition) => Resolves(x.ebeln, orders) && Resolves(x.rsnum, reservations));
    var c := CountFailing(r.reservations, (x: Reservation) => Resolves(x.banfn, requisitions));
    var d := CountFailing(r.movements, (x: Movement) => Resolves(x.ebeln, orders) && Resolves(x.rsnum, reservations));
    problems := a + b + c + d;
  }

  method CheckPlants(t: Output) returns (problems: nat)
    ensures problems == 0 <==> PlantsKnown(t)
  {
    var a := CountFailing(t.stock, (x: StockRow) => x.key.werks in t.codes);
    var b := CountFailing(t.batches, (x: Batch) => x.key.werks in t.codes);
    var c := CountFailing(t.rows.orderItems, (x: OrderItem) => x.key.werks in t.codes);
    var d := CountFailing(t.rows.movements, (x: Movement) => x.key.werks in t.codes);
    var e := CountFailing(t.rows.reservations, (x: Reservation) => x.key.werks in t.codes);
    var f := CountFailing(t.rows.requisitions, (x: Requisition) => x.key.werks in t.codes);
    problems := a + b + c + d + e + f;
  }

  /** Adding up once, by material-plant. */
  method TotalBatches(batches: seq<Batch>) returns (totals: map<PlantKey, int>)
    ensures forall k :: (if k in totals then totals[k] else 0) == BatchTotal(batches, k)
  {
    totals := map[];
    assert batches[..0] == [];
    for i := 0 to |batches|
      invariant forall k :: (if k in totals then totals[k] else 0) == BatchTotal(batches[..i], k)
    {
      assert batches[..i + 1][..i] == batches[..i];
      var key := batches[i].key;
      totals := totals[key := (if key in totals then totals[key] else 0) + batches[i].clabs];
    }
    assert batches[..|batches|] == batches;
  }

  method CheckBatches(t: Output) returns (problems: nat)
    ensures problems == 0 <==> BatchesReconcile(t)
  {
    var totals := TotalBatches(t.batches);
    problems := CountFailing(t.stock, (x: StockRow) => -10 <= (if x.key in totals then totals[x.key] else 0) - x.labst <= 10);
  }

  method CollectRequisitionDates(s: seq<Requisition>) returns (dates: map<nat, int>)
    ensures dates == RequisitionDates(s)
  {
    dates := map[];
    assert s[..0] == [];
    for i := 0 to |s|
      invariant dates == RequisitionDates(s[..i])
    {
      assert s[..i + 1][..i] == s[..i];
      dates := dates[s[i].banfn := s[i].badat];
    }
    assert s[..|s|] == s;
  }

  method CollectOrderDates(s: seq<Order>) returns (dates: map<nat, int>)
    ensures dates == OrderDates(s)
  {
    dates := map[];
    assert s[..0] == [];
    for i := 0 to |s|
      invariant dates == OrderDates(s[..i])
    {
      assert s[..i + 1][..i] == s[..i];
      dates := dates[s[i].ebeln := s[i].aedat];
    }
    assert s[..|s|] == s;
  }

  method CheckDates(r: Rows) returns (problems: nat)
    ensures problems == 0 <==> DatesInOrder(r)
  {
    var requested := CollectRequisitionDates(r.requisitions);
    var ordered := CollectOrderDates(r.orders);
    var a := CountFailing(r.orderItems, (x: OrderItem) => ItemDated(x, requested, ordered));
    var b := CountFailing(r.schedules, (x: Schedule) => x.ebeln in ordered && ordered[x.ebeln] <= x.eindt);
    var c := CountFailing(r.receipts, (x: Receipt) => x.ebeln in ordered && ordered[x.ebeln] <= x.budat);
    var d := CountFailing(r.headers, (x: Header) => x.budat <= AS_OF);
    problems := a + b + c + d;
  }

  method CheckQuantities(t: Output) returns (problems: nat)
    ensures problems == 0 <==> QuantitiesSensible(t)
  {
    var a := CountFailing(t.rows.orderItems, (x: OrderItem) => x.menge > 0);
    var b := CountFailing(t.rows.requisitions, (x: Requisition) => x.menge > 0);
    var c := CountFailing(t.rows.schedules, (x: Schedule) => x.wemng <= x.menge);
    var d := CountFailing(t.stock, (x: StockRow) => x.labst >= 0);
    problems := a + b + c + d;
  }

  method TotalMovements(movements: seq<Movement>) returns (totals: map<PlantKey, int>)
    ensures forall k :: (if k in totals then totals[k] else 0) == Net(movements, k)
  {
    totals := map[];
    assert movements[..0] == [];
    for i := 0 to |movements|
      invariant forall k :: (if k in totals then totals[k] else 0) == Net(movements[..i], k)
    {
      assert Front(movements[..i + 1]) == movements[..i];
      var key := movements[i].key;
      totals := totals[key := (if key in totals then totals[key] else 0) + Signed(movements[i])];
    }
    assert movements[..|movements|] == movements;
  }

  method CheckStock(t: Output) returns (problems: nat)
    ensures problems == 0 <==> StockReconciles(t)
  {
    var totals := TotalMovements(t.rows.movements);
    problems := CountFailing(t.held, (x: Held) => x.onHand + x.quality == x.opening + if x.key in totals then totals[x.key] else 0);
  }

  /** No problem is counted exactly when every section accepts the tables. */
  method CheckAll(t: Output) returns (problems: nat)
    ensures problems == 0 <==> Consistent(t)
  {
    hide KeysUnique, StockReferences, MaterialReferences, ParentReferences, OptionalReferences, PlantsKnown;
    hide BatchesReconcile, DatesInOrder, QuantitiesSensible, StockReconciles;
    var a := CheckKeys(t);
    var b := CheckMaterials(t);
    var c := CheckParents(t.rows);
    var d := CheckOptional(t.rows);
    var e := CheckPlants(t);
    var f := CheckBatches(t);
    var g := CheckDates(t.rows);
    var h := CheckQuantities(t);
    var i := CheckStock(t);
    problems := a + b + c + d + e + f + g + h + i;
  }
}
