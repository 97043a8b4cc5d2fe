/** What is written once every document is there (data-generator/generate.py, `finalise_po_items`,
    `write_stock_and_valuation` and `build_batch_stock`). */
module Closing {
  import opened Arithmetic
  import opened Calendar
  import opened Ledger
  import opened Rounding
  import opened Tables
  import opened Generator
  import B = BatchStock

  // --- order items and schedule lines ------------------------------------------------------

  function Finalised(r: Rows): Rows
    requires |r.orderItems| == |r.schedules| == |r.poItems|
  {
    r.(schedules := seq(|r.schedules|, i requires 0 <= i < |r.schedules| => r.schedules[i].(wemng := r.poItems[i].received)),
       orderItems := seq(|r.orderItems|, i requires 0 <= i < |r.orderItems| =>
                           r.orderItems[i].(elikz := r.poItems[i].received >= r.poItems[i].menge)))
  }

  /** What a schedule line says is delivered is what the goods receipts of its order add up to, never more
      than was ordered; and the item is completed exactly when all of it was delivered. */
  ghost predicate DeliveriesStated(r: Rows) {
    && |r.orderItems| == |r.schedules|
    && forall i | 0 <= i < |r.schedules| ::
         var line, item := r.schedules[i], r.orderItems[i];
         && line.ebeln == item.ebeln && line.menge == item.menge
         && line.wemng == ReceiptTotal(r.receipts, line.ebeln) && 0 <= line.wemng <= line.menge
         && (item.elikz <==> line.wemng == line.menge)
  }

  lemma FinalisedKeeps(r: Rows)
    requires WellFormed(r)
    ensures WellFormed(Finalised(r)) && DeliveriesStated(Finalised(r))
  {
    hide ReservationsLinked, ReceiptsMatch, MovementsFit, HeadersNumbered, ReservationsNumbered, RequisitionsNumbered;
    hide HistoryAddsUp, OrdersAgree, OrdersLinked, DeliveriesStated;
    var t := Finalised(r);
    SameNumbers(r);
    OrdersStillAgree(r.orders, r.orderItems, r.schedules, r.poItems, t.orderItems, t.schedules);
    LinksIgnoreElikz(r.orders, r.orderItems, t.orderItems, r.requisitions);
    DeliveriesAreStated(r);
  }

  lemma OrdersStillAgree(orders: seq<Order>, items: seq<OrderItem>, lines: seq<Schedule>, pos: seq<PoItem>,
                         doneItems: seq<OrderItem>, doneLines: seq<Schedule>)
    requires OrdersAgree(orders, items, lines, pos) && |doneItems| == |items| && |doneLines| == |lines|
    requires forall i | 0 <= i < |items| :: doneItems[i].ebeln == items[i].ebeln && doneItems[i].menge == items[i].menge
    requires forall i | 0 <= i < |lines| ::
               doneLines[i].ebeln == lines[i].ebeln && doneLines[i].menge == lines[i].menge && doneLines[i].eindt == lines[i].eindt
    ensures OrdersAgree(orders, doneItems, doneLines, pos)
  {
    forall i: nat | i < |orders| ensures OrderAgrees(i, orders[i], doneItems[i], doneLines[i], pos[i]) {
      assert OrderAgrees(i, orders[i], items[i], lines[i], pos[i]);
    }
  }

  lemma DeliveriesAreStated(r: Rows)
    requires WellFormed(r) && |r.orderItems| == |r.schedules| == |r.poItems|
    ensures DeliveriesStated(Finalised(r))
  {
    hide OrdersLinked, ReservationsLinked, ReceiptsMatch, MovementsFit, KeysKnown, ReceiptTotal;
    forall i: nat | i < |r.orders|
      ensures OrderAgrees(i, r.orders[i], r.orderItems[i], r.schedules[i], r.poItems[i])
      ensures r.poItems[i].received == ReceiptTotal(r.receipts, PO_START + i)
    {
    }
  }

  lemma LinksIgnoreElikz(orders: seq<Order>, items: seq<OrderItem>, after: seq<OrderItem>, requisitions: seq<Requisition>)
    requires OrdersLinked(orders, items, requisitions) && |after| == |items|
    requires forall i | 0 <= i < |items| :: after[i].banfn == items[i].banfn
    ensures OrdersLinked(orders, after, requisitions)
  {
    forall i: nat | i < |after| ensures ItemLinked(i, after[i], orders[i].aedat, requisitions) {
      assert ItemLinked(i, items[i], orders[i].aedat, requisitions);
    }
    forall j: nat | j < |requisitions| ensures RequisitionLinked(j, requisitions[j], after) {
      assert RequisitionLinked(j, requisitions[j], items);
    }
  }

  function Lookup(m: map<nat, int>, key: nat): int {
    if key in m then m[key] else 0
  }

  /** What was received, or ordered, by order number. */
  method CollectItems(pos: seq<PoItem>) returns (delivered: map<nat, int>, ordered: map<nat, int>)
    requires forall i: nat | i < |pos| :: pos[i].ebeln == PO_START + i
    ensures forall i: nat | i < |pos| :: Lookup(delivered, pos[i].ebeln) == pos[i].received && Lookup(ordered, pos[i].ebeln) == pos[i].menge
  {
    delivered, ordered := map[], map[];
    for k := 0 to |pos|
      invariant forall i: nat | i < k :: Lookup(delivered, pos[i].ebeln) == pos[i].received && Lookup(ordered, pos[i].ebeln) == pos[i].menge
    {
      delivered := delivered[pos[k].ebeln := pos[k].received];
      ordered := ordered[pos[k].ebeln := pos[k].menge];
    }
  }

  lemma SameNumbers(r: Rows)
    requires WellFormed(r)
    ensures |r.orderItems| == |r.schedules| == |r.poItems|
    ensures forall i: nat | i < |r.poItems| ::
              r.poItems[i].ebeln == r.orderItems[i].ebeln == r.schedules[i].ebeln == PO_START + i
  {
    forall i: nat | i < |r.poItems|
      ensures r.poItems[i].ebeln == r.orderItems[i].ebeln == r.schedules[i].ebeln == PO_START + i
    {
      assert OrderAgrees(i, r.orders[i], r.orderItems[i], r.schedules[i], r.poItems[i]);
    }
  }

  method FinaliseLines(d: Dataset, delivered: map<nat, int>)
    requires |d.schedules| == |d.poItems|
    requires forall i: nat | i < |d.poItems| :: Lookup(delivered, d.schedules[i].ebeln) == d.poItems[i].received
    modifies d`schedules
    ensures |d.schedules| == |old(d.schedules)|
    ensures forall k: nat | k < |d.schedules| :: d.schedules[k] == old(d.schedules)[k].(wemng := d.poItems[k].received)
  {
    var i := 0;
    while i < |d.schedules|
      invariant i <= |d.schedules| == |old(d.schedules)|
      invariant forall k: nat | k < |d.schedules| ::
                  d.schedules[k] == if k < i then old(d.schedules)[k].(wemng := d.poItems[k].received) else old(d.schedules)[k]
    {
      d.schedules := d.schedules[i := d.schedules[i].(wemng := Lookup(delivered, d.schedules[i].ebeln))];
      i := i + 1;
    }
  }

  method FinaliseItems(d: Dataset, delivered: map<nat, int>, ordered: map<nat, int>)
    requires |d.orderItems| == |d.poItems|
    requires forall i: nat | i < |d.poItems| ::
               Lookup(delivered, d.orderItems[i].ebeln) == d.poItems[i].received && Lookup(ordered, d.orderItems[i].ebeln) == d.poItems[i].menge
    modifies d`orderItems
    ensures |d.orderItems| == |old(d.orderItems)|
    ensures forall k: nat | k < |d.orderItems| ::
              d.orderItems[k] == old(d.orderItems)[k].(elikz := d.poItems[k].received >= d.poItems[k].menge)
  {
    var i := 0;
    while i < |d.orderItems|
      invariant i <= |d.orderItems| == |old(d.orderItems)|
      invariant forall k: nat | k < |d.orderItems| ::
                  d.orderItems[k] == if k < i then old(d.orderItems)[k].(elikz := d.poItems[k].received >= d.poItems[k].menge)
                                     else old(d.orderItems)[k]
    {
      var ebeln := d.orderItems[i].ebeln;
      d.orderItems := d.orderItems[i := d.orderItems[i].(elikz := Lookup(delivered, ebeln) >= Lookup(ordered, ebeln))];
      i := i + 1;
    }
  }

  method FinalisePoItems(d: Dataset)
    requires WellFormed(d.Snapshot())
    modifies d`schedules, d`orderItems
    ensures |old(d.orderItems)| == |old(d.schedules)| == |old(d.poItems)| && d.Snapshot() == Finalised(old(d.Snapshot()))
  {
    hide WellFormed;
    SameNumbers(d.Snapshot());
    var delivered, ordered := CollectItems(d.poItems);
    FinaliseLines(d, delivered);
    FinaliseItems(d, delivered, ordered);
    assert d.schedules == Finalised(old(d.Snapshot())).schedules;
    assert d.orderItems == Finalised(old(d.Snapshot())).orderItems;
  }

  // --- closing stock ------------------------------------------------------------------------

  /** Unrestricted and quality stock, in thousandths. */
  datatype StockRow = StockRow(key: PlantKey, labst: int, insme: int)

  datatype Batch = Batch(key: PlantKey, charg: nat, clabs: int)

  const BATCH_START: nat := 6000000000

  function Labst(onHand: int): int {
    1000 * Max(0, onHand)
  }

  method WriteStock(entries: seq<MaterialPlant>) returns (stock: seq<StockRow>)
    ensures |stock| == |entries|
    ensures forall i | 0 <= i < |entries| ::
              stock[i] == StockRow(entries[i].Key(), Labst(entries[i].onHand), 1000 * entries[i].qualityStock)
  {
    stock := [];
    for i := 0 to |entries|
      invariant |stock| == i
      invariant forall k | 0 <= k < i ::
                  stock[k] == StockRow(entries[k].Key(), Labst(entries[k].onHand), 1000 * entries[k].qualityStock)
    {
      stock := stock + [StockRow(entries[i].Key(), Labst(entries[i].onHand), 1000 * entries[i].qualityStock)];
    }
  }

  function InsertCut(cuts: seq<real>, x: real): seq<real> {
    if cuts == [] || cuts[0] > x then [x] + cuts else [cuts[0]] + InsertCut(cuts[1..], x)
  }

  lemma {:induction false} InsertCutKeeps(total: int, cuts: seq<real>, x: real)
    requires B.Cuts(total, cuts) && 0.0 <= x <= total as real
    ensures B.Cuts(total, InsertCut(cuts, x)) && |InsertCut(cuts, x)| == |cuts| + 1
    ensures forall y | y in InsertCut(cuts, x) :: y == x || y in cuts
  {
    if cuts != [] && cuts[0] <= x {
      InsertCutKeeps(total, cuts[1..], x);
      var rest := InsertCut(cuts[1..], x);
      forall i | 0 <= i < |rest| ensures cuts[0] <= rest[i] {
        assert rest[i] in rest;
      }
    }
  }

  method DrawCuts(total: int, count: nat) returns (cuts: seq<real>)
    requires total >= 0
    ensures |cuts| == count && B.Cuts(total, cuts)
  {
    cuts := [];
    while |cuts| < count
      invariant |cuts| <= count && B.Cuts(total, cuts)
    {
      var x := Uniform(0.0, total as real);
      InsertCutKeeps(total, cuts, x);
      cuts := InsertCut(cuts, x);
    }
  }

  method RoundedShares(edges: seq<real>, count: nat) returns (shares: seq<int>, taken: int)
    requires count < |edges|
    ensures shares == B.Rounded(edges, count) && taken == B.Sum(shares)
  {
    shares, taken := [], 0;
    for k := 0 to count
      invariant shares == B.Rounded(edges, k) && taken == B.Sum(shares)
    {
      var share := Round(edges[k + 1] - edges[k]);
      B.SumAppend(shares, share);
      taken := taken + share;
      shares := shares + [share];
    }
  }

  /** `split_quantity`, in thousandths. */
  method SplitQuantity(total: int, parts: int) returns (shares: seq<int>, ghost cuts: seq<real>)
    ensures |cuts| == if parts <= 1 || total <= 0 then 0 else parts - 1
    ensures B.Cuts(total, cuts) && shares == B.Shares(total, cuts) && B.MatchCuts(shares, cuts)
    ensures B.Sum(shares) == total
  {
    hide B.Rounded, B.Cuts, B.MatchCuts, B.Sum;
    if parts <= 1 || total <= 0 {
      WholeShare(total);
      return [total], [];
    }
    var drawn := DrawCuts(total, parts - 1);
    var rounded, taken := RoundedShares(B.Edges(total, drawn), |drawn|);
    B.SumAppend(rounded, total - taken);
    B.SharesMatchCuts(total, drawn);
    shares, cuts := rounded + [total - taken], drawn;
  }

  lemma WholeShare(total: int)
    ensures B.Cuts(total, []) && B.Shares(total, []) == [total] && B.MatchCuts([total], []) && B.Sum([total]) == total
  {
    B.SumAppend([], total);
    assert [] + [total] == [total];
  }

  function BatchTotal(batches: seq<Batch>, key: PlantKey): int {
    if batches == [] then 0
    else
      var last := batches[|batches| - 1];
      BatchTotal(batches[..|batches| - 1], key) + if last.key == key then last.clabs else 0
  }

  ghost predicate BatchesNumbered(batches: seq<Batch>, keys: set<PlantKey>) {
    forall i: nat | i < |batches| :: batches[i].charg == BATCH_START + i && batches[i].clabs > 0 && batches[i].key in keys
  }

  /** A row for each of the shares, in order, after the rows there were. */
  ghost predicate AreBatches(batches: seq<Batch>, more: seq<Batch>, key: PlantKey, shares: seq<int>) {
    && |more| == |batches| + |shares| && batches <= more
    && forall k | |batches| <= k < |more| :: more[k].key == key && more[k].clabs == shares[k - |batches|]
  }

  /** One row for every positive share. */
  method AddBatches(batches: seq<Batch>, key: PlantKey, shares: seq<int>, ghost keys: set<PlantKey>) returns (more: seq<Batch>)
    requires BatchesNumbered(batches, keys) && key in keys
    ensures BatchesNumbered(more, keys)
    ensures forall k :: BatchTotal(more, k) == BatchTotal(batches, k) + if k == key then B.Sum(B.Kept(shares)) else 0
    ensures AreBatches(batches, more, key, B.Kept(shares))
  {
    more := batches;
    assert shares[..0] == [] && B.Sum(B.Kept(shares[..0])) == 0;
    for i := 0 to |shares|
      invariant BatchesNumbered(more, keys) && AreBatches(batches, more, key, B.Kept(shares[..i]))
      invariant forall k :: BatchTotal(more, k) == BatchTotal(batches, k) + if k == key then B.Sum(B.Kept(shares[..i])) else 0
    {
      assert shares[..i + 1][..i] == shares[..i];
      ghost var kept := B.Kept(shares[..i]);
      assert B.Kept(shares[..i + 1]) == if shares[i] > 0 then kept + [shares[i]] else kept;
      if shares[i] > 0 {
        var batch := Batch(key, BATCH_START + |more|, shares[i]);
        OneMoreBatch(batches, more, kept, batch);
        more := more + [batch];
      }
    }
    assert shares[..|shares|] == shares;
  }

  lemma OneMoreBatch(batches: seq<Batch>, more: seq<Batch>, kept: seq<int>, batch: Batch)
    requires AreBatches(batches, more, batch.key, kept)
    ensures AreBatches(batches, more + [batch], batch.key, kept + [batch.clabs])
    ensures forall k :: BatchTotal(more + [batch], k) == BatchTotal(more, k) + if k == batch.key then batch.clabs else 0
    ensures B.Sum(kept + [batch.clabs]) == B.Sum(kept) + batch.clabs
  {
    assert (more + [batch])[..|more|] == more;
    B.SumAppend(kept, batch.clabs);
  }

  ghost predicate DistinctKeys(entries: seq<MaterialPlant>) {
    forall i, j | 0 <= i < j < |entries| :: entries[i].Key() != entries[j].Key()
  }

  function KeysOf(entries: seq<MaterialPlant>): set<PlantKey> {
    set i | 0 <= i < |entries| :: entries[i].Key()
  }

  /** The batches of a material-plant add up to its stock, or exceed it by one thousandth. */
  ghost predicate BatchesFit(batches: seq<Batch>, key: PlantKey, labst: int) {
    labst <= BatchTotal(batches, key) <= labst + 1
  }

  method BuildBatchStock(entries: seq<MaterialPlant>) returns (batches: seq<Batch>)
    requires DistinctKeys(entries)
    ensures BatchesNumbered(batches, KeysOf(entries))
    ensures forall i | 0 <= i < |entries| :: BatchesFit(batches, entries[i].Key(), Labst(entries[i].onHand))
  {
    hide B.Shares, B.Sum, B.Kept, B.Cuts;
    batches := [];
    for i := 0 to |entries|
      invariant BatchesNumbered(batches, KeysOf(entries))
      invariant forall k | 0 <= k < i :: BatchesFit(batches, entries[k].Key(), Labst(entries[k].onHand))
      invariant forall k | i <= k < |entries| :: BatchTotal(batches, entries[k].Key()) == 0
    {
      var onHand := Labst(entries[i].onHand);
      if onHand > 0 {
        var parts := 1;
        if onHand >= 5000 {
          parts := RandInt(1, 4);
        }
        var shares, cuts := SplitQuantity(onHand, parts);
        B.BatchesAddUp(onHand, cuts);
        assert entries[i].Key() in KeysOf(entries);
        batches := AddBatches(batches, entries[i].Key(), shares, KeysOf(entries));
      }
    }
  }
}
