/** Consumption and replenishment of one material-plant over the window
    (data-generator/generate.py, `simulate`, `apply_arrivals`, `raise_replenishment`), as a function of
    what is drawn at random. */
module StockWalk {
  import opened Arithmetic
  import opened Wrappers
  import opened Calendar
  import opened Rounding
  import opened Ledger
  import opened Sequences
  import opened Balances

  /** The planning data of a material-plant. Every lead time the generator draws is at least 7 days. */
  datatype Plan = Plan(key: PlantKey, minbe: real, mabst: real, lead: nat, replenishes: bool, demand: seq<nat>)
  {
    predicate Valid() {
      minbe >= 0.0 && mabst >= 0.0 && lead >= 7 && |demand| == HISTORY_MONTHS
    }

    /** What a replenishment fills up to. */
    function TopUp(): real {
      if mabst <= minbe * 1.5 then minbe * 1.5 else mabst
    }
  }

  /** What is drawn when an order is raised: days to the order, whether it is left open, how far the
      arrival lies from the promised date, and the share delivered if it is not all. */
  datatype OrderChoice = OrderChoice(wait: nat, leftOpen: bool, shift: int, share: Option<real>)
  {
    predicate Valid() {
      1 <= wait <= 12 && (-4 <= shift <= 0 || 2 <= shift <= 40) && (share.Some? ==> 0.4 <= share.value <= 0.8)
    }
  }

  datatype MonthChoice = MonthChoice(offset: nat, toOrder: bool, order: OrderChoice)

  predicate ValidChoices(choices: seq<MonthChoice>) {
    |choices| <= HISTORY_MONTHS && forall i | 0 <= i < |choices| :: choices[i].offset < Span(i) && choices[i].order.Valid()
  }

  /** A delivery on its way: when it arrives, how much, and which order item. */
  datatype Arrival = Arrival(day: int, quantity: int, item: nat)

  datatype Stock = Stock(rows: Rows, onHand: int, pending: seq<Arrival>)

  function PendingTotal(pending: seq<Arrival>): int {
    if pending == [] then 0 else pending[0].quantity + PendingTotal(pending[1..])
  }

  /** On hand and on its way. */
  function Position(s: Stock): int {
    s.onHand + PendingTotal(s.pending)
  }

  // --- the steps -------------------------------------------------------------------

  predicate Placed(s: Stock) {
    forall i | 0 <= i < |s.pending| :: s.pending[i].item < |s.rows.poItems|
  }

  function Arrive(key: PlantKey, s: Stock): Stock
    requires s.pending != [] && Placed(s)
  {
    var a := s.pending[0];
    var day := Max(a.day, s.rows.poItems[a.item].aedat + 1);
    Stock(Received(s.rows, key, a.item, a.quantity, day), s.onHand + a.quantity, s.pending[1..])
  }

  function ApplyArrivals(key: PlantKey, s: Stock, until: int): Stock
    requires Placed(s)
    decreases |s.pending|
  {
    if s.pending == [] || s.pending[0].day > until then s else ApplyArrivals(key, Arrive(key, s), until)
  }

  function Issue(key: PlantKey, s: Stock, demand: nat, when: int, toOrder: bool): Stock {
    if demand > 0 && s.onHand > 0 then
      var issued := Min(demand, s.onHand);
      Stock(Posted(s.rows, key, if toOrder then GiOrder else GiCostCentre, issued, when, false, None, None),
            s.onHand - issued, s.pending)
    else s
  }

  function OrderQuantity(plan: Plan, onHand: int): int {
    Max(1, Round(plan.TopUp() - onHand as real))
  }

  function Delivered(quantity: int, share: Option<real>): int {
    match share case None => quantity case Some(u) => PartOf(quantity, u)
  }

  /** Appending and sorting by arrival day, which keeps the order of equal days. */
  function InsertArrival(pending: seq<Arrival>, a: Arrival): seq<Arrival> {
    if pending == [] || pending[0].day > a.day then [a] + pending
    else [pending[0]] + InsertArrival(pending[1..], a)
  }

  function Replenish(plan: Plan, s: Stock, when: int, c: OrderChoice): Stock {
    var quantity := OrderQuantity(plan, s.onHand);
    var requested := Requested(s.rows, plan.key, quantity, when, None);
    var aedat := Min(AS_OF, when + c.wait);
    var eindt := aedat + plan.lead;
    var ordered := Ordered(requested, plan.key, quantity, aedat, eindt, |s.rows.requisitions|);
    if c.leftOpen then Stock(ordered, s.onHand, s.pending)
    else Stock(ordered, s.onHand,
               InsertArrival(s.pending, Arrival(eindt + c.shift, Delivered(quantity, c.share), |s.rows.poItems|)))
  }

  function Month(plan: Plan, s: Stock, index: nat, c: MonthChoice): Stock
    requires Placed(s) && index < |plan.demand|
  {
    var when := DayInMonth(index, c.offset);
    var issued := Issue(plan.key, ApplyArrivals(plan.key, s, when), plan.demand[index], when, c.toOrder);
    if plan.replenishes && Position(issued) as real <= plan.minbe then Replenish(plan, issued, when, c.order) else issued
  }

  // --- what every step keeps -----------------------------------------------------------

  /** The movements posted for the plant since the walk began: in date order up to `last`, never
      negative, and adding up to the stock. */
  ghost predicate LedgerSound(key: PlantKey, opening: int, own: seq<Movement>, onHand: int, last: int) {
    && onHand == opening + Total(own) && NeverNegative(opening, own)
    && InDateOrder(own) && AllOf(own, key)
    && forall i | 0 <= i < |own| :: own[i].budat <= last
  }

  ghost predicate ArrivalSound(a: Arrival, pos: seq<PoItem>, last: int) {
    && last <= a.day && a.item < |pos| && pos[a.item].received == 0
    && 0 < a.quantity <= pos[a.item].menge && pos[a.item].aedat + 3 <= a.day
  }

  /** What is pending is sorted, not before `last`, and each for its own order, not yet received. */
  ghost predicate PendingSound(pending: seq<Arrival>, pos: seq<PoItem>, last: int) {
    && (forall i | 0 <= i < |pending| :: ArrivalSound(pending[i], pos, last))
    && forall i, j | 0 <= i < j < |pending| :: pending[i].day <= pending[j].day && pending[i].item != pending[j].item
  }

  ghost predicate Sound(key: PlantKey, s: Stock, opening: int, base: nat, last: int) {
    && WellFormed(s.rows) && key in s.rows.plants && base <= |s.rows.movements|
    && LedgerSound(key, opening, s.rows.movements[base..], s.onHand, last)
    && PendingSound(s.pending, s.rows.poItems, last)
  }

  lemma SoundIsPlaced(key: PlantKey, s: Stock, opening: int, base: nat, last: int)
    requires Sound(key, s, opening, base, last)
    ensures Placed(s)
  {
    forall i | 0 <= i < |s.pending| ensures s.pending[i].item < |s.rows.poItems| {
      assert ArrivalSound(s.pending[i], s.rows.poItems, last);
    }
  }

  lemma LedgerAppend(key: PlantKey, opening: int, own: seq<Movement>, onHand: int, last: int, m: Movement, day: int)
    requires LedgerSound(key, opening, own, onHand, last) && last <= day && m.budat == day && m.key == key
    requires onHand + Signed(m) >= 0
    ensures LedgerSound(key, opening, own + [m], onHand + Signed(m), day)
  {
    assert Front(own + [m]) == own && Last(own + [m]) == m;
  }

  lemma ArriveKeeps(key: PlantKey, s: Stock, opening: int, base: nat, last: int)
    requires Sound(key, s, opening, base, last) && s.pending != [] && s.pending[0].day <= AS_OF
    ensures Placed(s) && Sound(key, Arrive(key, s), opening, base, s.pending[0].day)
    ensures Position(Arrive(key, s)) == Position(s) && Grown(s.rows, Arrive(key, s).rows)
  {
    hide WellFormed, LedgerSound, PendingSound, Placed;
    SoundIsPlaced(key, s, opening, base, last);
    var a := s.pending[0];
    FirstArrival(s.pending, s.rows.poItems, last);
    StockNotNegative(key, opening, s.rows.movements[base..], s.onHand, last);
    ReceivedKeeps(s.rows, key, a.item, a.quantity, a.day);
    var r := Received(s.rows, key, a.item, a.quantity, a.day);
    var own := s.rows.movements[base..];
    var m := Last(r.movements);
    assert r.movements[base..] == own + [m];
    LedgerAppend(key, opening, own, s.onHand, last, m, a.day);
    PendingTail(s.pending, s.rows.poItems, last, a.quantity);
  }

  /** Nothing posted before is lost; the material-plants and the reservations stay the same. */
  predicate Grown(r: Rows, t: Rows) {
    t.plants == r.plants && t.reservations == r.reservations && r.movements <= t.movements
  }

  lemma StockNotNegative(key: PlantKey, opening: int, own: seq<Movement>, onHand: int, last: int)
    requires LedgerSound(key, opening, own, onHand, last)
    ensures onHand >= 0
  {
  }

  lemma FirstArrival(pending: seq<Arrival>, pos: seq<PoItem>, last: int)
    requires PendingSound(pending, pos, last) && pending != []
    ensures ArrivalSound(pending[0], pos, last)
  {
  }

  lemma PendingTail(pending: seq<Arrival>, pos: seq<PoItem>, last: int, quantity: int)
    requires PendingSound(pending, pos, last) && pending != [] && pending[0].item < |pos|
    ensures var i := pending[0].item;
            PendingSound(pending[1..], pos[i := pos[i].(received := pos[i].received + quantity)], pending[0].day)
  {
    var i := pending[0].item;
    var after := pos[i := pos[i].(received := pos[i].received + quantity)];
    forall k | 0 <= k < |pending[1..]| ensures ArrivalSound(pending[1..][k], after, pending[0].day) {
      assert ArrivalSound(pending[k + 1], pos, last);
    }
  }

  lemma {:induction false} ApplyArrivalsKeeps(key: PlantKey, s: Stock, opening: int, base: nat, last: int, until: int)
    requires Sound(key, s, opening, base, last) && last <= until <= AS_OF
    ensures Placed(s) && Sound(key, ApplyArrivals(key, s, until), opening, base, until)
    ensures forall i | 0 <= i < |ApplyArrivals(key, s, until).pending| :: ApplyArrivals(key, s, until).pending[i].day > until
    ensures Position(ApplyArrivals(key, s, until)) == Position(s) && Grown(s.rows, ApplyArrivals(key, s, until).rows)
    decreases |s.pending|
  {
    hide Sound, Placed, Position;
    SoundIsPlaced(key, s, opening, base, last);
    if s.pending != [] && s.pending[0].day <= until {
      ArriveKeeps(key, s, opening, base, last);
      ApplyArrivalsKeeps(key, Arrive(key, s), opening, base, s.pending[0].day, until);
    } else {
      NothingDue(key, s, opening, base, last, until);
    }
  }

  lemma NothingDue(key: PlantKey, s: Stock, opening: int, base: nat, last: int, until: int)
    requires Sound(key, s, opening, base, last) && last <= until && (s.pending == [] || s.pending[0].day > until)
    ensures Sound(key, s, opening, base, until) && Grown(s.rows, s.rows)
    ensures forall i | 0 <= i < |s.pending| :: s.pending[i].day > until
  {
    hide WellFormed;
    PendingLater(s.pending, s.rows.poItems, last, until);
  }

  lemma PendingLater(pending: seq<Arrival>, pos: seq<PoItem>, last: int, until: int)
    requires PendingSound(pending, pos, last) && (pending == [] || pending[0].day > until)
    ensures PendingSound(pending, pos, until) && forall i | 0 <= i < |pending| :: pending[i].day > until
  {
    forall i | 0 <= i < |pending| ensures pending[i].day > until && ArrivalSound(pending[i], pos, until) {
      assert ArrivalSound(pending[i], pos, last);
    }
  }

  lemma IssueKeeps(key: PlantKey, s: Stock, opening: int, base: nat, when: int, demand: nat, toOrder: bool)
    requires Sound(key, s, opening, base, when) && when <= AS_OF
    ensures Sound(key, Issue(key, s, demand, when, toOrder), opening, base, when)
    ensures var t := Issue(key, s, demand, when, toOrder);
            Grown(s.rows, t.rows) && t.pending == s.pending && s.onHand - t.onHand == Min(demand, s.onHand) && 0 <= t.onHand <= s.onHand
  {
    assert s.onHand >= 0;
    if demand > 0 && s.onHand > 0 {
      var issued := Min(demand, s.onHand);
      var bwart := if toOrder then GiOrder else GiCostCentre;
      PostedKeeps(s.rows, key, bwart, issued, when, false, None, None);
      var r := Posted(s.rows, key, bwart, issued, when, false, None, None);
      assert r.movements[base..] == s.rows.movements[base..] + [Last(r.movements)];
      LedgerAppend(key, opening, s.rows.movements[base..], s.onHand, when, Last(r.movements), when);
    }
  }

  lemma DeliveredWithin(quantity: int, share: Option<real>)
    requires quantity >= 1 && (share.Some? ==> 0.4 <= share.value <= 0.8)
    ensures 1 <= Delivered(quantity, share) <= quantity
  {
    if share.Some? {
      PartWithin(quantity, share.value);
    }
  }

  lemma {:induction false} InsertKeeps(pending: seq<Arrival>, pos: seq<PoItem>, last: int, a: Arrival)
    requires PendingSound(pending, pos, last) && ArrivalSound(a, pos, last)
    requires forall i | 0 <= i < |pending| :: pending[i].item != a.item
    ensures PendingSound(InsertArrival(pending, a), pos, last)
    ensures forall x :: x in InsertArrival(pending, a) <==> x == a || x in pending
    ensures PendingTotal(InsertArrival(pending, a)) == PendingTotal(pending) + a.quantity
  {
    hide ArrivalSound;
    if pending == [] || pending[0].day > a.day {
      assert ([a] + pending)[1..] == pending;
    } else {
      var rest := InsertArrival(pending[1..], a);
      InsertKeeps(pending[1..], pos, last, a);
      assert InsertArrival(pending, a) == [pending[0]] + rest && ([pending[0]] + rest)[1..] == rest;
      forall i | 0 <= i < |rest| ensures pending[0].day <= rest[i].day && pending[0].item != rest[i].item {
        assert rest[i] in rest;
      }
    }
  }

  lemma ReplenishKeeps(plan: Plan, s: Stock, opening: int, base: nat, when: int, c: OrderChoice)
    requires plan.Valid() && c.Valid() && Sound(plan.key, s, opening, base, when) && when <= AS_OF
    ensures Sound(plan.key, Replenish(plan, s, when, c), opening, base, when)
    ensures var t, quantity := Replenish(plan, s, when, c), OrderQuantity(plan, s.onHand);
            && t.onHand == s.onHand && Grown(s.rows, t.rows)
            && PendingTotal(t.pending) == PendingTotal(s.pending) + (if c.leftOpen then 0 else Delivered(quantity, c.share))
            && |t.rows.orders| == |s.rows.orders| + 1 && t.rows.poItems[|s.rows.orders|].menge == quantity
  {
    hide WellFormed, LedgerSound, PendingSound;
    var quantity := OrderQuantity(plan, s.onHand);
    var requested := Requested(s.rows, plan.key, quantity, when, None);
    var aedat := Min(AS_OF, when + c.wait);
    var eindt := aedat + plan.lead;
    SameLengths(s.rows);
    RequestedKeeps(s.rows, plan.key, quantity, when, None);
    OrderedKeeps(requested, plan.key, quantity, aedat, eindt, |s.rows.requisitions|);
    var ordered := Ordered(requested, plan.key, quantity, aedat, eindt, |s.rows.requisitions|);
    PendingMore(s.pending, s.rows.poItems, when, ordered.poItems);
    if !c.leftOpen {
      DeliveredWithin(quantity, c.share);
      InsertKeeps(s.pending, ordered.poItems, when,
                  Arrival(eindt + c.shift, Delivered(quantity, c.share), |s.rows.poItems|));
    }
  }

  lemma PendingMore(pending: seq<Arrival>, pos: seq<PoItem>, last: int, more: seq<PoItem>)
    requires PendingSound(pending, pos, last) && pos <= more
    ensures PendingSound(pending, more, last) && forall i | 0 <= i < |pending| :: pending[i].item < |pos|
  {
    forall i | 0 <= i < |pending| ensures ArrivalSound(pending[i], more, last) && pending[i].item < |pos| {
      assert ArrivalSound(pending[i], pos, last);
    }
  }

  // --- a month, and the whole window ------------------------------------------------------

  /** On hand and pending together never exceed the opening stock or, above it, the fill-up level plus
      the reorder point plus one. The order size ignores what is pending, hence the reorder point. */
  ghost predicate Bounded(plan: Plan, s: Stock, opening: int) {
    Position(s) <= opening || Position(s) as real <= plan.TopUp() + plan.minbe + 1.0
  }

  lemma QuantityNear(plan: Plan, onHand: int)
    requires plan.Valid()
    ensures var q := OrderQuantity(plan, onHand);
            && q >= 1 && q as real >= plan.TopUp() - onHand as real - 0.5
            && (q == 1 || q as real <= plan.TopUp() - onHand as real + 0.5)
  {
    RoundIsNear(plan.TopUp() - onHand as real);
  }

  lemma {:induction false} PendingIsPositive(pending: seq<Arrival>, pos: seq<PoItem>, last: int)
    requires PendingSound(pending, pos, last)
    ensures PendingTotal(pending) >= |pending|
  {
    if pending != [] {
      FirstArrival(pending, pos, last);
      PendingIsPositive(pending[1..], pos, last);
    }
  }

  /** An order keeps the position under the bound; delivered in full, it lifts it to the fill-up level,
      give or take the rounding. */
  lemma ReplenishBounds(plan: Plan, s: Stock, opening: int, base: nat, when: int, c: OrderChoice)
    requires plan.Valid() && c.Valid() && Sound(plan.key, s, opening, base, when) && when <= AS_OF
    requires Position(s) as real <= plan.minbe
    ensures Bounded(plan, Replenish(plan, s, when, c), opening)
    ensures !c.leftOpen && c.share == None ==> Position(Replenish(plan, s, when, c)) as real >= plan.TopUp() - 0.5
  {
    ReplenishKeeps(plan, s, opening, base, when, c);
    PendingIsPositive(s.pending, s.rows.poItems, when);
    StockNotNegative(plan.key, opening, s.rows.movements[base..], s.onHand, when);
    hide Sound, Replenish, Delivered, OrderQuantity;
    var q := OrderQuantity(plan, s.onHand);
    QuantityNear(plan, s.onHand);
    WithinQuantity(q, c.share);
    PositionsCompare(plan.TopUp(), plan.minbe, s.onHand, PendingTotal(s.pending), q,
                     if c.leftOpen then 0 else Delivered(q, c.share));
  }

  /** The order is sized as if nothing were pending: delivered in full, it takes the position beyond the
      fill-up level by just what was already pending, give or take the rounding. */
  lemma OrderIgnoresPending(plan: Plan, s: Stock, opening: int, base: nat, when: int, c: OrderChoice)
    requires plan.Valid() && c.Valid() && Sound(plan.key, s, opening, base, when) && when <= AS_OF
    requires !c.leftOpen && c.share == None && plan.TopUp() >= s.onHand as real + 1.0
    ensures var excess := Position(Replenish(plan, s, when, c)) as real - plan.TopUp() - PendingTotal(s.pending) as real;
            -0.5 <= excess <= 0.5
  {
    ReplenishKeeps(plan, s, opening, base, when, c);
    hide Sound, Replenish;
    RoundIsNear(plan.TopUp() - s.onHand as real);
    RoundMonotone(1.0, plan.TopUp() - s.onHand as real);
    RoundOfInt(1);
  }

  lemma WithinQuantity(q: int, share: Option<real>)
    requires q >= 1 && (share.Some? ==> 0.4 <= share.value <= 0.8)
    ensures 1 <= Delivered(q, share) <= q && (share == None ==> Delivered(q, share) == q)
  {
    DeliveredWithin(q, share);
  }

  lemma PositionsCompare(topUp: real, minbe: real, onHand: int, pending: int, q: int, delivered: int)
    requires topUp >= 0.0 && onHand >= 0 && pending >= 0 && 0 <= delivered <= q && (onHand + pending) as real <= minbe
    requires q as real >= topUp - onHand as real - 0.5 && (q == 1 || q as real <= topUp - onHand as real + 0.5)
    ensures (onHand + pending + delivered) as real <= topUp + minbe + 1.0
    ensures delivered == q ==> (onHand + pending + delivered) as real >= topUp - 0.5
  {
  }

  lemma MonthKeeps(plan: Plan, s: Stock, opening: int, base: nat, last: int, index: nat, c: MonthChoice)
    requires plan.Valid() && index < |plan.demand| && c.offset < Span(index) && c.order.Valid()
    requires Sound(plan.key, s, opening, base, last) && Bounded(plan, s, opening)
    requires last <= DayInMonth(index, c.offset)
    ensures Placed(s) && Sound(plan.key, Month(plan, s, index, c), opening, base, DayInMonth(index, c.offset))
    ensures Bounded(plan, Month(plan, s, index, c), opening) && Grown(s.rows, Month(plan, s, index, c).rows)
  {
    hide Sound, Placed, ApplyArrivals, Issue, Replenish, Position, Bounded;
    var when := DayInMonth(index, c.offset);
    SoundIsPlaced(plan.key, s, opening, base, last);
    ApplyArrivalsKeeps(plan.key, s, opening, base, last, when);
    var arrived := ApplyArrivals(plan.key, s, when);
    IssueKeeps(plan.key, arrived, opening, base, when, plan.demand[index], c.toOrder);
    var issued := Issue(plan.key, arrived, plan.demand[index], when, c.toOrder);
    SmallerIsBounded(plan, s, arrived, issued, opening);
    if plan.replenishes && Position(issued) as real <= plan.minbe {
      ReplenishKeeps(plan, issued, opening, base, when, c.order);
      ReplenishBounds(plan, issued, opening, base, when, c.order);
    }
  }

  /** A month raises an order exactly when the plant replenishes and what is on hand and on its way, less
      the month's issue, is down to the reorder point; and it is always one order. */
  lemma OrdersAtReorderPoint(plan: Plan, s: Stock, opening: int, base: nat, last: int, index: nat, c: MonthChoice)
    requires plan.Valid() && index < |plan.demand| && c.offset < Span(index) && c.order.Valid()
    requires Sound(plan.key, s, opening, base, last) && last <= DayInMonth(index, c.offset)
    ensures Placed(s)
    ensures var t, when := Month(plan, s, index, c), DayInMonth(index, c.offset);
            var issued := Min(plan.demand[index], ApplyArrivals(plan.key, s, when).onHand);
            var due := plan.replenishes && (Position(s) - issued) as real <= plan.minbe;
            |t.rows.orders| == |s.rows.orders| + if due then 1 else 0
  {
    hide Sound, Placed, ApplyArrivals, Replenish;
    var when := DayInMonth(index, c.offset);
    SoundIsPlaced(plan.key, s, opening, base, last);
    ApplyArrivalsKeeps(plan.key, s, opening, base, last, when);
    ArrivalsOrderNothing(plan.key, s, when);
    var arrived := ApplyArrivals(plan.key, s, when);
    IssueKeeps(plan.key, arrived, opening, base, when, plan.demand[index], c.toOrder);
    var issued := Issue(plan.key, arrived, plan.demand[index], when, c.toOrder);
    if plan.replenishes && Position(issued) as real <= plan.minbe {
      ReplenishKeeps(plan, issued, opening, base, when, c.order);
    }
  }

  lemma {:induction false} ArrivalsOrderNothing(key: PlantKey, s: Stock, until: int)
    requires Placed(s)
    ensures ApplyArrivals(key, s, until).rows.orders == s.rows.orders
    decreases |s.pending|
  {
    if s.pending != [] && s.pending[0].day <= until {
      ArrivalsOrderNothing(key, Arrive(key, s), until);
    }
  }

  lemma SmallerIsBounded(plan: Plan, s: Stock, arrived: Stock, issued: Stock, opening: int)
    requires Bounded(plan, s, opening) && Position(arrived) == Position(s)
    requires issued.pending == arrived.pending && issued.onHand <= arrived.onHand
    ensures Bounded(plan, issued, opening)
  {
    assert Position(issued) <= Position(s);
  }

  /** The state after the months drawn so far. */
  function Walk(plan: Plan, s: Stock, choices: seq<MonthChoice>): Stock
    requires |choices| <= |plan.demand|
  {
    if choices == [] then s
    else
      var before := Walk(plan, s, Front(choices));
      if Placed(before) then Month(plan, before, |choices| - 1, Last(choices)) else before
  }

  function LastDay(choices: seq<MonthChoice>): int {
    if choices == [] then MonthStart(0) else DayInMonth(|choices| - 1, Last(choices).offset)
  }

  ghost predicate FreshStart(plan: Plan, s: Stock) {
    WellFormed(s.rows) && plan.key in s.rows.plants && s.onHand >= 0 && s.pending == []
  }

  /** Every state the walk can reach, for every demand and everything drawn, is sound and bounded. */
  lemma {:induction false} WalkKeeps(plan: Plan, s: Stock, choices: seq<MonthChoice>)
    requires plan.Valid() && ValidChoices(choices) && FreshStart(plan, s)
    ensures Placed(Walk(plan, s, choices)) && LastDay(choices) <= AS_OF
    ensures Sound(plan.key, Walk(plan, s, choices), s.onHand, |s.rows.movements|, LastDay(choices))
    ensures Bounded(plan, Walk(plan, s, choices), s.onHand) && Grown(s.rows, Walk(plan, s, choices).rows)
  {
    hide Sound, Bounded, Placed, Month, Grown;
    if choices == [] {
      StartIsSound(plan, s);
    } else {
      WalkKeeps(plan, s, Front(choices));
      DayAfter(choices);
      var before, n := Walk(plan, s, Front(choices)), |choices| - 1;
      MonthKeeps(plan, before, s.onHand, |s.rows.movements|, LastDay(Front(choices)), n, choices[n]);
      SoundIsPlaced(plan.key, Month(plan, before, n, choices[n]), s.onHand, |s.rows.movements|, LastDay(choices));
      GrownOn(s.rows, before.rows, Walk(plan, s, choices).rows);
    }
  }

  lemma StartIsSound(plan: Plan, s: Stock)
    requires FreshStart(plan, s)
    ensures Placed(s) && Sound(plan.key, s, s.onHand, |s.rows.movements|, MonthStart(0)) && MonthStart(0) <= AS_OF
    ensures Bounded(plan, s, s.onHand) && Grown(s.rows, s.rows)
  {
    assert s.rows.movements[|s.rows.movements|..] == [];
    hide WellFormed, MonthStart;
    WindowEnd();
    MonthStartIncreases(0, HISTORY_MONTHS - 1);
  }

  lemma GrownOn(a: Rows, b: Rows, c: Rows)
    requires Grown(a, b) && Grown(b, c)
    ensures Grown(a, c)
  {
  }

  /** The next month's day is not before the last one's. */
  lemma DayAfter(choices: seq<MonthChoice>)
    requires choices != [] && ValidChoices(choices)
    ensures Last(choices).offset < Span(|choices| - 1) && Last(choices).order.Valid() && ValidChoices(Front(choices))
    ensures LastDay(Front(choices)) <= LastDay(choices) <= AS_OF
  {
    hide DayInMonth, Span, MonthStart, OrderChoice.Valid;
    var n := |choices| - 1;
    assert choices[n].offset < Span(n) && choices[n].order.Valid();
    if n > 0 {
      DaysIncrease(n - 1, choices[n - 1].offset, n, choices[n].offset);
    } else {
      FirstDay(choices[0].offset);
    }
  }

  /** A month in which nothing arrives, nothing is asked for and the position is above the reorder point. */
  lemma QuietMonth(plan: Plan, s: Stock, index: nat, c: MonthChoice)
    requires Placed(s) && index < |plan.demand| && plan.demand[index] == 0 && Position(s) as real > plan.minbe
    requires s.pending == [] || s.pending[0].day > DayInMonth(index, c.offset)
    ensures Month(plan, s, index, c) == s
  {
  }

  lemma {:induction false} QuietWalk(plan: Plan, s: Stock, choices: seq<MonthChoice>)
    requires |choices| <= |plan.demand| && s.pending == [] && Position(s) as real > plan.minbe
    requires forall i | 0 <= i < |choices| :: plan.demand[i] == 0
    ensures Walk(plan, s, choices) == s
  {
    if choices != [] {
      QuietWalk(plan, s, Front(choices));
      QuietMonth(plan, s, |choices| - 1, Last(choices));
    }
  }

  lemma FirstDay(offset: nat)
    requires offset < Span(0)
    ensures MonthStart(0) <= DayInMonth(0, offset) <= AS_OF
  {
    WindowEnd();
    MonthStartIncreases(0, HISTORY_MONTHS - 1);
  }

  /** `simulate`: the months, and then whatever arrives by the as-of date. */
  function Simulated(plan: Plan, s: Stock, choices: seq<MonthChoice>): Stock
    requires |choices| <= |plan.demand|
  {
    var walked := Walk(plan, s.(pending := []), choices);
    if Placed(walked) then ApplyArrivals(plan.key, walked, AS_OF) else walked
  }

  /** Over the whole window, whatever is drawn: the documents stay well formed; the movements posted
      for the plant are in date order, add up to its closing stock, and on no day, taken by their
      dates, bring the stock below zero; and what is still pending arrives after the as-of date. */
  lemma SimulatedKeeps(plan: Plan, s: Stock, choices: seq<MonthChoice>)
    requires plan.Valid() && ValidChoices(choices) && WellFormed(s.rows) && plan.key in s.rows.plants && s.onHand >= 0
    ensures var t, base := Simulated(plan, s, choices), |s.rows.movements|;
            && Sound(plan.key, t, s.onHand, base, AS_OF) && Grown(s.rows, t.rows)
            && (forall day :: s.onHand + BalanceAt(t.rows.movements[base..], plan.key, day) >= 0)
            && (forall i | 0 <= i < |t.pending| :: t.pending[i].day > AS_OF)
  {
    var start, base := s.(pending := []), |s.rows.movements|;
    WalkKeeps(plan, start, choices);
    ApplyArrivalsKeeps(plan.key, Walk(plan, start, choices), s.onHand, base, LastDay(choices), AS_OF);
    var t := Simulated(plan, s, choices);
    forall day ensures s.onHand + BalanceAt(t.rows.movements[base..], plan.key, day) >= 0 {
      DatedNeverNegative(s.onHand, t.rows.movements[base..], plan.key, day);
    }
  }
}
