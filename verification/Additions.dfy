/** What the builders of data-generator/generate.py do to the tables they share: add rows for one
    material-plant, and touch none that was there. */
module Additions {
  import opened Wrappers
  import opened Ledger
  import opened Sequences
  import opened Balances

  ghost predicate ReservationsFor(a: seq<Reservation>, b: seq<Reservation>, key: PlantKey) {
    a <= b && forall i | |a| <= i < |b| :: b[i].key == key
  }

  ghost predicate RequisitionsFor(a: seq<Requisition>, b: seq<Requisition>, key: PlantKey) {
    a <= b && forall i | |a| <= i < |b| :: b[i].key == key
  }

  ghost predicate ItemsFor(a: seq<OrderItem>, b: seq<OrderItem>, key: PlantKey) {
    a <= b && forall i | |a| <= i < |b| :: b[i].key == key
  }

  /** Receipts added are for orders from `order` on. */
  ghost predicate ReceiptsFrom(a: seq<Receipt>, b: seq<Receipt>, order: nat) {
    a <= b && forall k | |a| <= k < |b| :: b[k].ebeln >= order
  }

  /** Movements added are for the material-plant, and name reservations from `rsnum` on if any. */
  ghost predicate MovementsFrom(a: seq<Movement>, b: seq<Movement>, key: PlantKey, rsnum: nat) {
    a <= b && forall k | |a| <= k < |b| :: b[k].key == key && (b[k].rsnum.Some? ==> b[k].rsnum.value >= rsnum)
  }

  /** Documents are added for one material-plant only, and none there before is touched. */
  ghost predicate AddsFor(r: Rows, t: Rows, key: PlantKey) {
    && t.plants == r.plants && r.orders <= t.orders && r.schedules <= t.schedules
    && ItemsFor(r.orderItems, t.orderItems, key)
    && RequisitionsFor(r.requisitions, t.requisitions, key)
    && ReservationsFor(r.reservations, t.reservations, key)
    && ReceiptsFrom(r.receipts, t.receipts, PO_START + |r.orders|)
    && MovementsFrom(r.movements, t.movements, key, RES_START + |r.reservations|)
  }

  lemma AddsNothing(r: Rows, key: PlantKey)
    ensures AddsFor(r, r, key)
  {
  }

  lemma AddsTwice(r: Rows, s: Rows, t: Rows, key: PlantKey)
    requires AddsFor(r, s, key) && AddsFor(s, t, key)
    ensures AddsFor(r, t, key)
  {
  }

  /** No document is for the material-plant. */
  ghost predicate NothingFor(r: Rows, key: PlantKey) {
    && (forall i | 0 <= i < |r.reservations| :: r.reservations[i].key != key)
    && (forall i | 0 <= i < |r.requisitions| :: r.requisitions[i].key != key)
    && (forall i | 0 <= i < |r.orderItems| :: r.orderItems[i].key != key)
    && forall i | 0 <= i < |r.movements| :: r.movements[i].key != key
  }

  lemma StillNothing(r: Rows, t: Rows, key: PlantKey, other: PlantKey)
    requires AddsFor(r, t, key) && other != key && NothingFor(r, other)
    ensures NothingFor(t, other)
  {
  }

  lemma {:induction false} ReceiptTotalKept(a: seq<Receipt>, b: seq<Receipt>, order: nat, ebeln: nat)
    requires ReceiptsFrom(a, b, order) && ebeln < order
    ensures ReceiptTotal(b, ebeln) == ReceiptTotal(a, ebeln)
  {
    if |a| < |b| {
      ReceiptTotalKept(a, Front(b), order, ebeln);
    } else {
      assert a == b;
    }
  }

  /** A material-plant's own movements are as they were once others' are added. */
  lemma OfOthers(r: Rows, t: Rows, key: PlantKey, other: PlantKey)
    requires AddsFor(r, t, key)
    ensures Of(t.movements, other) == Of(r.movements, other) + if other == key then t.movements[|r.movements|..] else []
  {
    var more := t.movements[|r.movements|..];
    assert t.movements == r.movements + more;
    OfConcat(r.movements, more, other);
    OfOwn(more, key);
  }

  /** Everything of `r` is in `t`; only what is stated as delivered may differ. */
  ghost predicate Extends(r: Rows, t: Rows) {
    && t.plants == r.plants && r.reservations <= t.reservations && r.requisitions <= t.requisitions
    && r.orders <= t.orders && r.receipts <= t.receipts && r.movements <= t.movements
    && |r.orderItems| <= |t.orderItems| && |r.schedules| <= |t.schedules|
    && (forall i | 0 <= i < |r.orderItems| :: t.orderItems[i].(elikz := r.orderItems[i].elikz) == r.orderItems[i])
    && forall i | 0 <= i < |r.schedules| :: t.schedules[i].(wemng := r.schedules[i].wemng) == r.schedules[i]
  }

  lemma AddingExtends(r: Rows, s: Rows, t: Rows, key: PlantKey)
    requires Extends(r, s) && AddsFor(s, t, key)
    ensures Extends(r, t)
  {
  }
}
