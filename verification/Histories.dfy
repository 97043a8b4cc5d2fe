/** What the tables say, once a material-plant has been walked through the window, of every month of it
    (data-generator/generate.py, `simulate`): the issue, the order at the reorder point and its documents, and
    every delivery. Stated over the rows written, and proved of the walk. */
module Histories {
  import opened Arithmetic
  import opened Wrappers
  import opened Calendar
  import opened Rounding
  import opened Ledger
  import opened Sequences
  import opened Balances
  import opened Additions
  import opened StockWalk

  /** An order raised in a month: its quantity, its rows, and its delivery unless it is left open. */
  datatype Raised = Raised(month: nat, quantity: int, requisition: nat, item: nat, arrival: Option<Arrival>)

  function DayOf(choices: seq<MonthChoice>, month: nat): int
    requires month < |choices|
  {
    DayInMonth(month, choices[month].offset)
  }

  // --- sums over a plant's own movements ---------------------------------------------------

  function IssueSum(own: seq<Movement>): int {
    if own == [] then 0 else IssueSum(Front(own)) + if Last(own).debit then 0 else Last(own).menge
  }

  /** The issues dated on a day. */
  function IssuesOn(own: seq<Movement>, day: int): seq<Movement> {
    if own == [] then [] else IssuesOn(Front(own), day) + if !Last(own).debit && Last(own).budat == day then [Last(own)] else []
  }

  /** What was issued up to a day. */
  function IssuedBy(own: seq<Movement>, day: int): int {
    if own == [] then 0 else IssuedBy(Front(own), day) + if !Last(own).debit && Last(own).budat <= day then Last(own).menge else 0
  }

  /** The dated stock with which a day's issue is met: receipts up to the day, issues before it. */
  function StockBefore(opening: int, own: seq<Movement>, day: int): int {
    if own == [] then opening
    else
      var m := Last(own);
      StockBefore(opening, Front(own), day) +
      if m.debit && m.budat <= day then m.menge else if !m.debit && m.budat < day then -m.menge else 0
  }

  /** What the orders raised before a month deliver. */
  function Deliveries(raised: seq<Raised>, month: nat): int {
    if raised == [] then 0
    else
      var p := Last(raised);
      Deliveries(Front(raised), month) + if p.month < month && p.arrival.Some? then p.arrival.value.quantity else 0
  }

  // --- what the tables say -----------------------------------------------------------------

  /** The month's issue is one movement over the smaller of its demand and the stock there is; none if that is
      nothing. */
  ghost predicate IssueTold(opening: int, demand: nat, c: MonthChoice, day: int, own: seq<Movement>) {
    var due := Min(demand, StockBefore(opening, own, day));
    if due <= 0 then IssuesOn(own, day) == []
    else
      && |IssuesOn(own, day)| == 1
      && var m := IssuesOn(own, day)[0];
         m.menge == due && m.bwart == (if c.toOrder then GiOrder else GiCostCentre) && m.ebeln == None && m.rsnum == None
  }

  /** The quantity fills up to the maximum or, if that is more, one and a half times the reorder point, give or
      take the rounding, and is one at least. */
  ghost predicate FillsUp(quantity: int, plan: Plan, onHand: int) {
    && quantity >= 1
    && (quantity + onHand) as real + 0.5 >= plan.mabst && (quantity + onHand) as real + 0.5 >= plan.minbe * 1.5
    && (quantity == 1 || (quantity + onHand) as real - 0.5 <= plan.mabst || (quantity + onHand) as real - 0.5 <= plan.minbe * 1.5)
  }

  /** An order is raised in the month exactly if the plant replenishes and its opening stock and all earlier
      orders deliver, less all that was issued, is down to the reorder point. It fills up what is on hand. */
  ghost predicate OrderTold(plan: Plan, opening: int, month: nat, day: int, raised: seq<Raised>, own: seq<Movement>) {
    && ((exists p :: p in raised && p.month == month) <==>
          plan.replenishes && (opening + Deliveries(raised, month) - IssuedBy(own, day)) as real <= plan.minbe)
    && forall p | p in raised && p.month == month :: FillsUp(p.quantity, plan, opening + BalanceAt(own, plan.key, day))
  }

  ghost predicate MonthsTold(plan: Plan, opening: int, choices: seq<MonthChoice>, raised: seq<Raised>, own: seq<Movement>)
    requires |choices| <= |plan.demand|
  {
    forall i: nat | i < |choices| ::
      && IssueTold(opening, plan.demand[i], choices[i], DayOf(choices, i), own)
      && OrderTold(plan, opening, i, DayOf(choices, i), raised, own)
  }

  /** What is delivered of an order: all, or the share of it that was drawn, rounded and one at least. */
  ghost predicate DeliversShare(delivered: int, quantity: int, share: Option<real>) {
    match share
    case None => delivered == quantity
    case Some(u) => IsPart(delivered, quantity, u)
  }

  /** Requisition on the month's day, order as much later as was drawn but not after the as-of date, promised
      after the lead time, and delivered as much off that as was drawn, unless it is left open. */
  ghost predicate OrderWritten(r: Rows, plan: Plan, c: OrderChoice, day: int, p: Raised) {
    && p.item < |r.orders| && p.item < |r.orderItems| && p.item < |r.schedules| && p.requisition < |r.requisitions|
    && var aedat := Min(AS_OF, day + c.wait);
       && r.requisitions[p.requisition] ==
          Requisition(PR_START + p.requisition, plan.key, p.quantity, day, Some(PO_START + p.item), None)
       && r.orders[p.item] == Order(PO_START + p.item, aedat)
       && r.orderItems[p.item].(elikz := false) ==
          OrderItem(PO_START + p.item, plan.key, p.quantity, false, Some(PR_START + p.requisition))
       && r.schedules[p.item].(wemng := 0) == Schedule(PO_START + p.item, aedat + plan.lead, p.quantity, 0)
       && (c.leftOpen <==> p.arrival == None)
       && (p.arrival.Some? ==>
             && p.arrival.value.item == p.item && p.arrival.value.day == aedat + plan.lead + c.shift
             && DeliversShare(p.arrival.value.quantity, p.quantity, c.share))
  }

  ghost predicate OrdersWritten(r: Rows, plan: Plan, choices: seq<MonthChoice>, raised: seq<Raised>) {
    forall k | 0 <= k < |raised| ::
      raised[k].month < |choices| &&
      OrderWritten(r, plan, choices[raised[k].month].order, DayOf(choices, raised[k].month), raised[k])
  }

  /** One order a month at most. */
  ghost predicate InTurn(raised: seq<Raised>) {
    forall k, l | 0 <= k < l < |raised| ::
      raised[k].month < raised[l].month && raised[k].item < raised[l].item && raised[k].requisition < raised[l].requisition
  }

  ghost predicate IsReceiptOf(m: Movement, a: Arrival) {
    m.debit && m.bwart == GrPo && m.ebeln == Some(PO_START + a.item) && m.menge == a.quantity && m.budat == a.day
  }

  ghost predicate WasReceived(own: seq<Movement>, a: Arrival) {
    exists m :: m in own && IsReceiptOf(m, a)
  }

  ghost predicate ReceivesOrder(raised: seq<Raised>, m: Movement) {
    exists p :: p in raised && p.arrival.Some? && IsReceiptOf(m, p.arrival.value)
  }

  ghost predicate ReceiptsDiffer(own: seq<Movement>) {
    forall i, j | 0 <= i < j < |own| && own[i].debit && own[j].debit :: own[i].ebeln != own[j].ebeln
  }

  /** Receipts are for the orders raised, each received once at most; and every delivery due by the as-of date
      is received, on its day and in its quantity, and adds up to that in the order history. */
  ghost predicate ReceiptsTold(receipts: seq<Receipt>, raised: seq<Raised>, own: seq<Movement>) {
    && ReceiptsDiffer(own)
    && (forall m | m in own && m.debit :: ReceivesOrder(raised, m))
    && forall p | p in raised ::
         var due := p.arrival.Some? && p.arrival.value.day <= AS_OF;
         && (due ==> WasReceived(own, p.arrival.value))
         && ReceiptTotal(receipts, PO_START + p.item) == if due then p.arrival.value.quantity else 0
  }

  /** Nothing is issued on any other day than the months' days. */
  ghost predicate IssuesDated(own: seq<Movement>, choices: seq<MonthChoice>) {
    forall m | m in own && !m.debit :: exists i: nat :: i < |choices| && m.budat == DayOf(choices, i)
  }

  ghost predicate Raises(raised: seq<Raised>, item: nat) {
    exists p :: p in raised && p.item == item
  }

  ghost predicate Requests(raised: seq<Raised>, requisition: nat) {
    exists p :: p in raised && p.requisition == requisition
  }

  /** And the plant has no other order or requisition. */
  ghost predicate NoOtherOrders(r: Rows, key: PlantKey, raised: seq<Raised>) {
    && (forall i: nat | i < |r.orderItems| && r.orderItems[i].key == key :: Raises(raised, i))
    && forall j: nat | j < |r.requisitions| && r.requisitions[j].key == key :: Requests(raised, j)
  }

  /** The whole window of a material-plant, as its rows tell it. */
  ghost predicate WalkTold(plan: Plan, opening: int, r: Rows, choices: seq<MonthChoice>, raised: seq<Raised>) {
    var own := Of(r.movements, plan.key);
    && |choices| == |plan.demand| == HISTORY_MONTHS && ValidChoices(choices) && InTurn(raised)
    && OrdersWritten(r, plan, choices, raised) && NoOtherOrders(r, plan.key, raised)
    && MonthsTold(plan, opening, choices, raised, own)
    && IssuesDated(own, choices) && ReceiptsTold(r.receipts, raised, own)
  }

  // --- it stays told as other documents are added ---------------------------------------------

  lemma OrdersStayWritten(r: Rows, t: Rows, key: PlantKey, plan: Plan, choices: seq<MonthChoice>, raised: seq<Raised>)
    requires AddsFor(r, t, key) && OrdersWritten(r, plan, choices, raised)
    ensures OrdersWritten(t, plan, choices, raised)
  {
    hide DayOf, DeliversShare;
  }

  lemma ReceiptsStayTold(r: Rows, t: Rows, key: PlantKey, plan: Plan, choices: seq<MonthChoice>, raised: seq<Raised>,
                         own: seq<Movement>)
    requires AddsFor(r, t, key) && OrdersWritten(r, plan, choices, raised) && ReceiptsTold(r.receipts, raised, own)
    ensures ReceiptsTold(t.receipts, raised, own)
  {
    hide DayOf, DeliversShare, WasReceived, ReceivesOrder, ReceiptsDiffer;
    forall p | p in raised ensures ReceiptTotal(t.receipts, PO_START + p.item) == ReceiptTotal(r.receipts, PO_START + p.item) {
      var k :| 0 <= k < |raised| && raised[k] == p;
      ReceiptTotalKept(r.receipts, t.receipts, PO_START + |r.orders|, PO_START + p.item);
    }
  }

  lemma NoneRaised(r: Rows, t: Rows, key: PlantKey, other: PlantKey, raised: seq<Raised>)
    requires AddsFor(r, t, key) && other != key && NoOtherOrders(r, other, raised)
    ensures NoOtherOrders(t, other, raised)
  {
    hide Raises, Requests;
  }

  /** Documents added for another material-plant leave the window told as it was. */
  lemma WalkStaysTold(r: Rows, t: Rows, key: PlantKey, plan: Plan, opening: int, choices: seq<MonthChoice>, raised: seq<Raised>)
    requires AddsFor(r, t, key) && plan.key != key && WalkTold(plan, opening, r, choices, raised)
    ensures WalkTold(plan, opening, t, choices, raised)
  {
    hide AddsFor, OrdersWritten, NoOtherOrders, MonthsTold, IssuesDated, ReceiptsTold, InTurn, ValidChoices;
    OfOthers(r, t, key, plan.key);
    assert Of(t.movements, plan.key) == Of(r.movements, plan.key);
    OrdersStayWritten(r, t, key, plan, choices, raised);
    ReceiptsStayTold(r, t, key, plan, choices, raised, Of(r.movements, plan.key));
    NoneRaised(r, t, key, plan.key, raised);
  }

  // --- while the window is walked ----------------------------------------------------------

  /** What is on its way comes of the orders raised, and what they deliver is on its way or was received. */
  ghost predicate Tracked(own: seq<Movement>, pending: seq<Arrival>, raised: seq<Raised>) {
    && ReceiptsDiffer(own)
    && (forall m | m in own && m.debit :: ReceivesOrder(raised, m))
    && (forall p | p in raised && p.arrival.Some? ::
          p.arrival.value.item == p.item && (p.arrival.value in pending || WasReceived(own, p.arrival.value)))
    && (forall a | a in pending :: exists p :: p in raised && p.arrival == Some(a))
    && forall a, m | a in pending && m in own && m.debit :: m.ebeln != Some(PO_START + a.item)
  }

  /** And the running items say what was received. */
  ghost predicate Counts(pos: seq<PoItem>, pending: seq<Arrival>, raised: seq<Raised>) {
    forall p | p in raised ::
      && p.item < |pos|
      && pos[p.item].received == if p.arrival.Some? && p.arrival.value !in pending then p.arrival.value.quantity else 0
  }

  /** The orders raised are all there are since the walk began. */
  ghost predicate Numbers(raised: seq<Raised>, months: nat, start: Rows, r: Rows) {
    && |r.orders| == |start.orders| + |raised| && |r.requisitions| == |start.requisitions| + |raised|
    && InTurn(raised)
    && forall k | 0 <= k < |raised| ::
         raised[k].month < months && raised[k].item == |start.orders| + k && raised[k].requisition == |start.requisitions| + k
  }

  /** What is on its way arrives after the months walked. */
  ghost predicate AllLater(pending: seq<Arrival>, choices: seq<MonthChoice>) {
    forall a, i: nat | a in pending && i < |choices| :: a.day > DayOf(choices, i)
  }

  /** The months walked so far. */
  ghost predicate Story(plan: Plan, opening: int, start: Rows, t: Stock, choices: seq<MonthChoice>, raised: seq<Raised>)
    requires |choices| <= |plan.demand|
  {
    && |start.movements| <= |t.rows.movements|
    && var own := t.rows.movements[|start.movements|..];
       && Numbers(raised, |choices|, start, t.rows) && OrdersWritten(t.rows, plan, choices, raised)
       && MonthsTold(plan, opening, choices, raised, own) && IssuesDated(own, choices)
       && Tracked(own, t.pending, raised) && Counts(t.rows.poItems, t.pending, raised) && AllLater(t.pending, choices)
       && Position(t) == opening + Deliveries(raised, |choices|) - IssueSum(own)
       && AddsFor(start, t.rows, plan.key)
  }

  lemma LaterMovement(opening: int, own: seq<Movement>, m: Movement, key: PlantKey, day: int)
    requires m.budat > day
    ensures StockBefore(opening, own + [m], day) == StockBefore(opening, own, day)
    ensures IssuesOn(own + [m], day) == IssuesOn(own, day) && IssuedBy(own + [m], day) == IssuedBy(own, day)
    ensures BalanceAt(own + [m], key, day) == BalanceAt(own, key, day)
  {
    assert Front(own + [m]) == own;
  }

  /** A movement after all the months walked changes nothing that was told of them. */
  lemma MonthsStayTold(plan: Plan, opening: int, choices: seq<MonthChoice>, raised: seq<Raised>, own: seq<Movement>,
                       m: Movement)
    requires |choices| <= |plan.demand| && MonthsTold(plan, opening, choices, raised, own)
    requires forall i: nat | i < |choices| :: m.budat > DayOf(choices, i)
    ensures MonthsTold(plan, opening, choices, raised, own + [m])
  {
    hide DayOf, StockBefore, IssuesOn, IssuedBy, BalanceAt, Deliveries, FillsUp;
    forall i: nat | i < |choices|
      ensures IssueTold(opening, plan.demand[i], choices[i], DayOf(choices, i), own + [m])
      ensures OrderTold(plan, opening, i, DayOf(choices, i), raised, own + [m])
    {
      LaterMovement(opening, own, m, plan.key, DayOf(choices, i));
    }
  }

  // --- an arrival ------------------------------------------------------------------------

  lemma TrackedArrival(own: seq<Movement>, pending: seq<Arrival>, raised: seq<Raised>, m: Movement)
    requires Tracked(own, pending, raised) && pending != [] && IsReceiptOf(m, pending[0])
    requires forall j | 0 < j < |pending| :: pending[j].item != pending[0].item
    ensures Tracked(own + [m], pending[1..], raised)
  {
    hide IsReceiptOf, InTurn;
    var a := pending[0];
    assert a in pending;
    var p :| p in raised && p.arrival == Some(a);
    assert IsReceiptOf(m, p.arrival.value);
    assert m in own + [m];
    ReceivedNow(own, pending, raised, m);
    ApartNow(own, pending, m);
  }

  lemma ReceivedNow(own: seq<Movement>, pending: seq<Arrival>, raised: seq<Raised>, m: Movement)
    requires pending != [] && IsReceiptOf(m, pending[0])
    requires forall p | p in raised && p.arrival.Some? :: p.arrival.value in pending || WasReceived(own, p.arrival.value)
    ensures forall p | p in raised && p.arrival.Some? :: p.arrival.value in pending[1..] || WasReceived(own + [m], p.arrival.value)
  {
    hide IsReceiptOf;
    forall p | p in raised && p.arrival.Some?
      ensures p.arrival.value in pending[1..] || WasReceived(own + [m], p.arrival.value)
    {
      var b := p.arrival.value;
      if b in pending {
        if b == pending[0] { assert m in own + [m]; }
      } else {
        var x :| x in own && IsReceiptOf(x, b);
        assert x in own + [m];
      }
    }
  }

  lemma ApartNow(own: seq<Movement>, pending: seq<Arrival>, m: Movement)
    requires pending != [] && IsReceiptOf(m, pending[0]) && ReceiptsDiffer(own)
    requires forall j | 0 < j < |pending| :: pending[j].item != pending[0].item
    requires forall a, x | a in pending && x in own && x.debit :: x.ebeln != Some(PO_START + a.item)
    ensures ReceiptsDiffer(own + [m])
    ensures forall a, x | a in pending[1..] && x in own + [m] && x.debit :: x.ebeln != Some(PO_START + a.item)
  {
    assert pending[0] in pending;
    forall i | 0 <= i < |own| && own[i].debit ensures own[i].ebeln != m.ebeln {
      assert own[i] in own;
    }
    forall a, x | a in pending[1..] && x in own + [m] && x.debit ensures x.ebeln != Some(PO_START + a.item) {
      var j :| 0 <= j < |pending[1..]| && pending[1..][j] == a;
      assert pending[j + 1] == a && a in pending;
    }
  }

  lemma CountsArrival(pos: seq<PoItem>, pending: seq<Arrival>, raised: seq<Raised>, own: seq<Movement>)
    requires Counts(pos, pending, raised) && Tracked(own, pending, raised) && InTurn(raised)
    requires pending != [] && pending[0].item < |pos| && pos[pending[0].item].received == 0
    requires forall j | 0 < j < |pending| :: pending[j].item != pending[0].item
    ensures var a := pending[0];
            Counts(pos[a.item := pos[a.item].(received := pos[a.item].received + a.quantity)], pending[1..], raised)
  {
    hide ReceiptsDiffer, ReceivesOrder, WasReceived;
    var a := pending[0];
    var after := pos[a.item := pos[a.item].(received := pos[a.item].received + a.quantity)];
    assert a in pending;
    var q :| q in raised && q.arrival == Some(a);
    forall p | p in raised
      ensures p.item < |after|
      ensures after[p.item].received == if p.arrival.Some? && p.arrival.value !in pending[1..] then p.arrival.value.quantity else 0
    {
      OneRaised(raised, p, q);
      if p.item == a.item {
        assert p == q;
        assert a !in pending[1..] by { NotAgain(pending); }
      } else if p.arrival.Some? {
        assert p.arrival.value in pending <==> p.arrival.value in pending[1..];
      }
    }
  }

  lemma OneRaised(raised: seq<Raised>, p: Raised, q: Raised)
    requires InTurn(raised) && p in raised && q in raised
    ensures p.item == q.item ==> p == q
  {
  }

  lemma NotAgain(pending: seq<Arrival>)
    requires pending != [] && forall j | 0 < j < |pending| :: pending[j].item != pending[0].item
    ensures pending[0] !in pending[1..]
  {
  }

  lemma ArrivalAdds(start: Rows, s: Rows, key: PlantKey, item: nat, quantity: int, day: int)
    requires AddsFor(start, s, key) && |start.orders| <= item < |s.poItems| && s.poItems[item].ebeln == PO_START + item
    ensures AddsFor(start, Received(s, key, item, quantity, day), key)
  {
  }

  lemma DatesStay(own: seq<Movement>, choices: seq<MonthChoice>, m: Movement)
    requires IssuesDated(own, choices) && m.debit
    ensures IssuesDated(own + [m], choices)
  {
    hide DayOf;
  }

  lemma ReceiptIssuesNothing(own: seq<Movement>, m: Movement)
    ensures IssueSum(own + [m]) == IssueSum(own) + if m.debit then 0 else m.menge
  {
    assert Front(own + [m]) == own;
  }

  /** One arrival: received on its day, under its own order. */
  lemma ArriveTells(plan: Plan, opening: int, start: Rows, s: Stock, choices: seq<MonthChoice>, raised: seq<Raised>, last: int)
    requires |choices| <= |plan.demand| && Sound(plan.key, s, opening, |start.movements|, last)
    requires Story(plan, opening, start, s, choices, raised) && s.pending != [] && s.pending[0].day <= AS_OF
    ensures Placed(s) && Story(plan, opening, start, Arrive(plan.key, s), choices, raised)
  {
    hide Sound, Placed, Numbers, OrdersWritten, MonthsTold, IssuesDated, Tracked, Counts, AllLater, AddsFor, Position;
    hide Deliveries, IssueSum;
    hide Grown, DayOf, ReceiptTotal;
    ArriveKeeps(plan.key, s, opening, |start.movements|, last);
    FirstPending(plan.key, s, opening, |start.movements|, last);
    var a, own := s.pending[0], s.rows.movements[|start.movements|..];
    var m := Movement(s.rows.nextDoc, GrPo, plan.key, true, a.quantity, a.day, Some(PO_START + a.item), None);
    var t := Arrive(plan.key, s);
    assert t.rows == Received(s.rows, plan.key, a.item, a.quantity, a.day);
    assert t.rows.movements[|start.movements|..] == own + [m];
    ItemIsNew(own, s.pending, raised, |choices|, start, s.rows);
    ArrivalAdds(start, s.rows, plan.key, a.item, a.quantity, a.day);
    ArrivalLater(s.pending, choices);
    MonthsStayTold(plan, opening, choices, raised, own, m);
    DatesStay(own, choices, m);
    TrackedArrival(own, s.pending, raised, m);
    TurnsOf(raised, |choices|, start, s.rows);
    CountsArrival(s.rows.poItems, s.pending, raised, own);
    ReceiptIssuesNothing(own, m);
    SameOrders(start, s.rows, t.rows, plan, choices, raised);
  }

  lemma SameOrders(start: Rows, s: Rows, t: Rows, plan: Plan, choices: seq<MonthChoice>, raised: seq<Raised>)
    requires OrdersWritten(s, plan, choices, raised) && Numbers(raised, |choices|, start, s)
    requires t.orders == s.orders && t.orderItems == s.orderItems && t.schedules == s.schedules && t.requisitions == s.requisitions
    ensures OrdersWritten(t, plan, choices, raised) && Numbers(raised, |choices|, start, t)
  {
    hide DayOf, DeliversShare;
  }

  lemma TurnsOf(raised: seq<Raised>, months: nat, start: Rows, r: Rows)
    requires Numbers(raised, months, start, r)
    ensures InTurn(raised)
  {
  }

  lemma FirstPending(key: PlantKey, s: Stock, opening: int, base: nat, last: int)
    requires Sound(key, s, opening, base, last) && s.pending != []
    ensures var a := s.pending[0];
            && a.item < |s.rows.poItems| && s.rows.poItems[a.item].received == 0 && s.rows.poItems[a.item].aedat + 3 <= a.day
            && s.rows.poItems[a.item].ebeln == PO_START + a.item
    ensures forall j | 0 < j < |s.pending| :: s.pending[j].item != s.pending[0].item
  {
    hide WellFormed, LedgerSound;
    FirstArrival(s.pending, s.rows.poItems, last);
    OrderNumberOf(s.rows, s.pending[0].item);
  }

  lemma ItemIsNew(own: seq<Movement>, pending: seq<Arrival>, raised: seq<Raised>, months: nat, start: Rows, r: Rows)
    requires Tracked(own, pending, raised) && Numbers(raised, months, start, r) && pending != []
    ensures pending[0].item >= |start.orders|
  {
    hide ReceiptsDiffer, ReceivesOrder, WasReceived, InTurn;
    assert pending[0] in pending;
    var p :| p in raised && p.arrival == Some(pending[0]);
    var k :| 0 <= k < |raised| && raised[k] == p;
  }

  lemma ArrivalLater(pending: seq<Arrival>, choices: seq<MonthChoice>)
    requires AllLater(pending, choices) && pending != []
    ensures AllLater(pending[1..], choices)
    ensures forall i: nat | i < |choices| :: pending[0].day > DayOf(choices, i)
  {
    hide DayOf;
    assert pending[0] in pending;
  }

  lemma {:induction false} ArrivalsTell(plan: Plan, opening: int, start: Rows, s: Stock, choices: seq<MonthChoice>,
                                        raised: seq<Raised>, last: int, until: int)
    requires |choices| <= |plan.demand| && Sound(plan.key, s, opening, |start.movements|, last) && last <= until <= AS_OF
    requires Story(plan, opening, start, s, choices, raised)
    ensures Placed(s) && Story(plan, opening, start, ApplyArrivals(plan.key, s, until), choices, raised)
    decreases |s.pending|
  {
    hide Sound, Placed, Story;
    SoundIsPlaced(plan.key, s, opening, |start.movements|, last);
    if s.pending != [] && s.pending[0].day <= until {
      ArriveKeeps(plan.key, s, opening, |start.movements|, last);
      ArriveTells(plan, opening, start, s, choices, raised, last);
      ArrivalsTell(plan, opening, start, Arrive(plan.key, s), choices, raised, s.pending[0].day, until);
    }
  }

  // --- the month's issue -------------------------------------------------------------------

  ghost predicate LaterThan(pending: seq<Arrival>, day: int) {
    forall a | a in pending :: a.day > day
  }

  ghost predicate EarlierThan(choices: seq<MonthChoice>, day: int) {
    forall i: nat | i < |choices| :: DayOf(choices, i) < day
  }

  /** The months walked so far, and the issue of the next. */
  ghost predicate IssueMade(plan: Plan, opening: int, start: Rows, t: Stock, choices: seq<MonthChoice>,
                            raised: seq<Raised>, c: MonthChoice)
    requires |choices| < |plan.demand|
  {
    var day := DayInMonth(|choices|, c.offset);
    && |start.movements| <= |t.rows.movements|
    && var own := t.rows.movements[|start.movements|..];
       && Numbers(raised, |choices|, start, t.rows) && OrdersWritten(t.rows, plan, choices, raised)
       && MonthsTold(plan, opening, choices, raised, own) && IssuesDated(own, choices + [c])
       && IssueTold(opening, plan.demand[|choices|], c, day, own)
       && Tracked(own, t.pending, raised) && Counts(t.rows.poItems, t.pending, raised) && LaterThan(t.pending, day)
       && IssuedBy(own, day) == IssueSum(own) && opening + BalanceAt(own, plan.key, day) == t.onHand
       && Position(t) == opening + Deliveries(raised, |choices|) - IssueSum(own)
       && AddsFor(start, t.rows, plan.key)
  }

  /** With every movement dated up to the day and every issue before it, the dated stock is all there is. */
  lemma {:induction false} AllBefore(opening: int, own: seq<Movement>, day: int)
    requires forall i | 0 <= i < |own| :: own[i].budat <= day && (!own[i].debit ==> own[i].budat < day)
    ensures StockBefore(opening, own, day) == opening + Total(own)
    ensures IssuesOn(own, day) == [] && IssuedBy(own, day) == IssueSum(own)
  {
    if own != [] {
      AllBefore(opening, Front(own), day);
    }
  }

  lemma IssuesAreEarlier(own: seq<Movement>, choices: seq<MonthChoice>, day: int)
    requires IssuesDated(own, choices) && EarlierThan(choices, day)
    ensures forall i | 0 <= i < |own| :: !own[i].debit ==> own[i].budat < day
  {
    hide DayOf;
    forall i | 0 <= i < |own| && !own[i].debit ensures own[i].budat < day {
      assert own[i] in own;
    }
  }

  lemma WithIssue(opening: int, own: seq<Movement>, m: Movement, key: PlantKey, day: int)
    requires !m.debit && m.budat == day && m.key == key
    ensures StockBefore(opening, own + [m], day) == StockBefore(opening, own, day)
    ensures IssuesOn(own + [m], day) == IssuesOn(own, day) + [m]
    ensures IssuedBy(own + [m], day) == IssuedBy(own, day) + m.menge
    ensures BalanceAt(own + [m], key, day) == BalanceAt(own, key, day) - m.menge
  {
    assert Front(own + [m]) == own;
  }

  lemma TrackedIssue(own: seq<Movement>, pending: seq<Arrival>, raised: seq<Raised>, m: Movement)
    requires Tracked(own, pending, raised) && !m.debit
    ensures Tracked(own + [m], pending, raised)
  {
    hide IsReceiptOf;
    forall p | p in raised && p.arrival.Some? && WasReceived(own, p.arrival.value) ensures WasReceived(own + [m], p.arrival.value) {
      var x :| x in own && IsReceiptOf(x, p.arrival.value);
      assert x in own + [m];
    }
  }

  lemma DatesGrow(own: seq<Movement>, choices: seq<MonthChoice>, c: MonthChoice)
    requires IssuesDated(own, choices)
    ensures IssuesDated(own, choices + [c])
  {
    forall m | m in own && !m.debit ensures exists i: nat :: i < |choices + [c]| && m.budat == DayOf(choices + [c], i) {
      var i: nat :| i < |choices| && m.budat == DayOf(choices, i);
      assert DayOf(choices + [c], i) == m.budat;
    }
  }

  lemma DatesGrowWith(own: seq<Movement>, choices: seq<MonthChoice>, c: MonthChoice, m: Movement)
    requires IssuesDated(own, choices + [c]) && m.budat == DayInMonth(|choices|, c.offset)
    ensures IssuesDated(own + [m], choices + [c])
  {
    assert m.budat == DayOf(choices + [c], |choices|);
    hide DayOf;
  }

  lemma IssueAdds(start: Rows, s: Rows, key: PlantKey, bwart: MovementType, quantity: int, day: int)
    requires AddsFor(start, s, key)
    ensures AddsFor(start, Posted(s, key, bwart, quantity, day, false, None, None), key)
  {
  }

  lemma OwnBalance(key: PlantKey, opening: int, own: seq<Movement>, onHand: int, day: int)
    requires LedgerSound(key, opening, own, onHand, day)
    ensures opening + BalanceAt(own, key, day) == onHand == opening + Total(own)
  {
    BalanceAfterAll(own, key, day);
    NetOfOwn(own, key);
  }

  lemma SoundLedger(key: PlantKey, s: Stock, opening: int, base: nat, last: int)
    requires Sound(key, s, opening, base, last)
    ensures base <= |s.rows.movements| && LedgerSound(key, opening, s.rows.movements[base..], s.onHand, last) && s.onHand >= 0
    ensures forall i | base <= i < |s.rows.movements| :: s.rows.movements[i].budat <= last
  {
    var own := s.rows.movements[base..];
    forall i | base <= i < |s.rows.movements| ensures s.rows.movements[i].budat <= last {
      assert s.rows.movements[i] == own[i - base];
    }
  }

  lemma IssueTells(plan: Plan, opening: int, start: Rows, s: Stock, choices: seq<MonthChoice>, raised: seq<Raised>,
                   c: MonthChoice)
    requires |choices| < |plan.demand| && Story(plan, opening, start, s, choices, raised)
    requires var day := DayInMonth(|choices|, c.offset);
             Sound(plan.key, s, opening, |start.movements|, day) && LaterThan(s.pending, day) && EarlierThan(choices, day)
    ensures var t := Issue(plan.key, s, plan.demand[|choices|], DayInMonth(|choices|, c.offset), c.toOrder);
            IssueMade(plan, opening, start, t, choices, raised, c)
  {
    hide Sound, Numbers, OrdersWritten, MonthsTold, IssuesDated, Tracked, Counts, AddsFor, Deliveries, IssueSum, AllLater;
    hide DayInMonth, StockBefore, IssuesOn, IssuedBy, BalanceAt, EarlierThan, LedgerSound, Total, LaterThan;
    var day, own, demand := DayInMonth(|choices|, c.offset), s.rows.movements[|start.movements|..], plan.demand[|choices|];
    SoundLedger(plan.key, s, opening, |start.movements|, day);
    OwnBalance(plan.key, opening, own, s.onHand, day);
    IssuesAreEarlier(own, choices, day);
    AllBefore(opening, own, day);
    DatesGrow(own, choices, c);
    if demand > 0 && s.onHand > 0 {
      var bwart, issued := if c.toOrder then GiOrder else GiCostCentre, Min(demand, s.onHand);
      var m := Movement(s.rows.nextDoc, bwart, plan.key, false, issued, day, None, None);
      var r := Posted(s.rows, plan.key, bwart, issued, day, false, None, None);
      assert r.movements[|start.movements|..] == own + [m];
      WithIssue(opening, own, m, plan.key, day);
      assert IssuesOn(own + [m], day) == [m];
      DaysBefore(choices, day);
      MonthsStayTold(plan, opening, choices, raised, own, m);
      DatesGrowWith(own, choices, c, m);
      TrackedIssue(own, s.pending, raised, m);
      ReceiptIssuesNothing(own, m);
      IssueAdds(start, s.rows, plan.key, bwart, issued, day);
      SameOrders(start, s.rows, r, plan, choices, raised);
    }
  }

  lemma DaysBefore(choices: seq<MonthChoice>, day: int)
    requires EarlierThan(choices, day)
    ensures forall i: nat | i < |choices| :: day > DayOf(choices, i)
  {
  }

  // --- the month's order -------------------------------------------------------------------

  lemma {:induction false} DeliveriesOf(raised: seq<Raised>, months: nat, more: nat)
    requires months <= more && forall k | 0 <= k < |raised| :: raised[k].month < months
    ensures Deliveries(raised, months) == Deliveries(raised, more)
  {
    if raised != [] {
      DeliveriesOf(Front(raised), months, more);
    }
  }

  lemma OneMoreDelivery(raised: seq<Raised>, p: Raised, month: nat)
    ensures Deliveries(raised + [p], month) ==
            Deliveries(raised, month) + if p.month < month && p.arrival.Some? then p.arrival.value.quantity else 0
  {
    assert Front(raised + [p]) == raised;
  }

  lemma MonthsOf(raised: seq<Raised>, months: nat, start: Rows, r: Rows)
    requires Numbers(raised, months, start, r)
    ensures Numbers(raised, months + 1, start, r)
    ensures forall k | 0 <= k < |raised| :: raised[k].month < months
    ensures forall p | p in raised :: p.month < months
  {
  }

  lemma LaterGrows(pending: seq<Arrival>, choices: seq<MonthChoice>, c: MonthChoice)
    requires var day := DayInMonth(|choices|, c.offset); LaterThan(pending, day) && EarlierThan(choices, day)
    ensures AllLater(pending, choices + [c])
  {
    hide DayInMonth;
    forall a, i: nat | a in pending && i < |choices + [c]| ensures a.day > DayOf(choices + [c], i) {
      if i < |choices| { assert DayOf(choices + [c], i) == DayOf(choices, i); }
    }
  }

  lemma ChoicesGrow(r: Rows, plan: Plan, choices: seq<MonthChoice>, raised: seq<Raised>, c: MonthChoice)
    requires OrdersWritten(r, plan, choices, raised)
    ensures OrdersWritten(r, plan, choices + [c], raised)
  {
    hide OrderWritten;
    forall k | 0 <= k < |raised|
      ensures raised[k].month < |choices + [c]|
      ensures OrderWritten(r, plan, (choices + [c])[raised[k].month].order, DayOf(choices + [c], raised[k].month), raised[k])
    {
      assert DayOf(choices + [c], raised[k].month) == DayOf(choices, raised[k].month);
    }
  }

  /** One more month told, with the orders raised up to it. */
  lemma MonthsGrow(plan: Plan, opening: int, choices: seq<MonthChoice>, raised: seq<Raised>, own: seq<Movement>, c: MonthChoice,
                   more: seq<Raised>)
    requires |choices| < |plan.demand| && MonthsTold(plan, opening, choices, raised, own)
    requires more == raised || (|more| == |raised| + 1 && raised == Front(more) && Last(more).month == |choices|)
    requires var day := DayInMonth(|choices|, c.offset);
             IssueTold(opening, plan.demand[|choices|], c, day, own) && OrderTold(plan, opening, |choices|, day, more, own)
    ensures MonthsTold(plan, opening, choices + [c], more, own)
  {
    hide IssueTold, FillsUp, DayInMonth;
    forall i: nat | i < |choices + [c]|
      ensures IssueTold(opening, plan.demand[i], (choices + [c])[i], DayOf(choices + [c], i), own)
      ensures OrderTold(plan, opening, i, DayOf(choices + [c], i), more, own)
    {
      if i < |choices| {
        assert DayOf(choices + [c], i) == DayOf(choices, i);
        if more != raised {
          assert more == raised + [Last(more)];
          EarlierMonthStays(plan, opening, i, DayOf(choices, i), raised, own, Last(more));
        }
      }
    }
  }

  lemma EarlierMonthStays(plan: Plan, opening: int, month: nat, day: int, raised: seq<Raised>, own: seq<Movement>, p: Raised)
    requires OrderTold(plan, opening, month, day, raised, own) && p.month > month
    ensures OrderTold(plan, opening, month, day, raised + [p], own)
  {
    hide FillsUp;
    OneMoreDelivery(raised, p, month);
    if q :| q in raised && q.month == month {
      assert q in raised + [p];
    }
  }

  /** Above the reorder point nothing is ordered. */
  lemma NothingDueTells(plan: Plan, opening: int, start: Rows, t: Stock, choices: seq<MonthChoice>,
                        raised: seq<Raised>, c: MonthChoice)
    requires |choices| < |plan.demand| && IssueMade(plan, opening, start, t, choices, raised, c)
    requires EarlierThan(choices, DayInMonth(|choices|, c.offset)) && !(plan.replenishes && Position(t) as real <= plan.minbe)
    ensures Story(plan, opening, start, t, choices + [c], raised)
  {
    hide Numbers, OrdersWritten, MonthsTold, IssuesDated, Tracked, Counts, AddsFor, Deliveries, IssueSum, AllLater, Position;
    hide DayInMonth, IssuedBy, BalanceAt, EarlierThan, IssueTold, FillsUp, LaterThan;
    MonthsOf(raised, |choices|, start, t.rows);
    DeliveriesOf(raised, |choices|, |choices| + 1);
    LaterGrows(t.pending, choices, c);
    ChoicesGrow(t.rows, plan, choices, raised, c);
    MonthsGrow(plan, opening, choices, raised, t.rows.movements[|start.movements|..], c, raised);
  }

  /** The order raised in a month. */
  function RaisedIn(plan: Plan, s: Stock, month: nat, when: int, c: OrderChoice): Raised {
    var quantity := OrderQuantity(plan, s.onHand);
    var eindt := Min(AS_OF, when + c.wait) + plan.lead;
    Raised(month, quantity, |s.rows.requisitions|, |s.rows.poItems|,
           if c.leftOpen then None else Some(Arrival(eindt + c.shift, Delivered(quantity, c.share), |s.rows.poItems|)))
  }

  lemma SharesAreDelivered(quantity: int, share: Option<real>)
    requires quantity >= 1 && (share.Some? ==> 0.4 <= share.value <= 0.8)
    ensures DeliversShare(Delivered(quantity, share), quantity, share)
  {
    if share.Some? {
      PartWithin(quantity, share.value);
    }
  }

  lemma FillsItUp(plan: Plan, onHand: int)
    requires plan.Valid()
    ensures FillsUp(OrderQuantity(plan, onHand), plan, onHand)
  {
    QuantityNear(plan, onHand);
  }

  /** The rows of the order, and the orders before it untouched. */
  lemma OrderIsWritten(plan: Plan, start: Rows, s: Stock, choices: seq<MonthChoice>, raised: seq<Raised>, c: MonthChoice)
    requires plan.Valid() && c.order.Valid() && WellFormed(s.rows)
    requires Numbers(raised, |choices|, start, s.rows) && OrdersWritten(s.rows, plan, choices + [c], raised)
    ensures var day := DayInMonth(|choices|, c.offset);
            var t, p := Replenish(plan, s, day, c.order), RaisedIn(plan, s, |choices|, day, c.order);
            OrderWritten(t.rows, plan, c.order, day, p) && OrdersWritten(t.rows, plan, choices + [c], raised + [p])
  {
    hide WellFormed, DayInMonth, DeliversShare, Delivered, OrderQuantity;
    SameLengths(s.rows);
    var day := DayInMonth(|choices|, c.offset);
    QuantityNear(plan, s.onHand);
    SharesAreDelivered(OrderQuantity(plan, s.onHand), c.order.share);
    var t, p := Replenish(plan, s, day, c.order), RaisedIn(plan, s, |choices|, day, c.order);
    assert OrderWritten(t.rows, plan, c.order, day, p);
    assert DayOf(choices + [c], |choices|) == day;
    OrdersStay(s.rows, t.rows, plan, choices + [c], raised);
  }

  lemma OrdersStay(s: Rows, t: Rows, plan: Plan, choices: seq<MonthChoice>, raised: seq<Raised>)
    requires OrdersWritten(s, plan, choices, raised)
    requires s.orders <= t.orders && s.orderItems <= t.orderItems && s.schedules <= t.schedules && s.requisitions <= t.requisitions
    ensures OrdersWritten(t, plan, choices, raised)
  {
    hide DayOf, DeliversShare;
  }

  lemma OrderAdds(start: Rows, s: Stock, plan: Plan, when: int, c: OrderChoice)
    requires AddsFor(start, s.rows, plan.key) && |start.requisitions| <= |s.rows.requisitions|
    ensures AddsFor(start, Replenish(plan, s, when, c).rows, plan.key)
  {
    hide OrderQuantity, Delivered, InsertArrival;
  }

  /** `after` is what was on its way, and the order's delivery if it has one. */
  ghost predicate Joined(pending: seq<Arrival>, p: Raised, after: seq<Arrival>) {
    forall a :: a in after <==> a in pending || p.arrival == Some(a)
  }

  lemma TrackedRaise(own: seq<Movement>, pending: seq<Arrival>, raised: seq<Raised>, p: Raised, after: seq<Arrival>)
    requires Tracked(own, pending, raised) && Joined(pending, p, after) && (p.arrival.Some? ==> p.arrival.value.item == p.item)
    requires forall q | q in raised :: q.item < p.item
    ensures Tracked(own, after, raised + [p])
  {
    hide IsReceiptOf, WasReceived, ReceiptsDiffer;
    assert p in raised + [p];
    forall m | m in own && m.debit ensures ReceivesOrder(raised + [p], m) && m.ebeln != Some(PO_START + p.item) {
      var q :| q in raised && q.arrival.Some? && IsReceiptOf(m, q.arrival.value);
      assert q in raised + [p];
      OrderOfReceipt(m, q.arrival.value);
    }
    forall a | a in after ensures exists q :: q in raised + [p] && q.arrival == Some(a) {
      if a in pending {
        var q :| q in raised && q.arrival == Some(a);
        assert q in raised + [p];
      }
    }
  }

  lemma OrderOfReceipt(m: Movement, a: Arrival)
    requires IsReceiptOf(m, a)
    ensures m.ebeln == Some(PO_START + a.item)
  {
  }

  lemma CountsRaise(pos: seq<PoItem>, own: seq<Movement>, pending: seq<Arrival>, raised: seq<Raised>, p: Raised,
                    after: seq<Arrival>, po: PoItem)
    requires Counts(pos, pending, raised) && Tracked(own, pending, raised) && Joined(pending, p, after)
    requires p.item == |pos| && po.received == 0 && (p.arrival.Some? ==> p.arrival.value.item == p.item)
    ensures Counts(pos + [po], after, raised + [p])
  {
    hide ReceiptsDiffer, ReceivesOrder, WasReceived;
    forall q | q in raised && q.arrival.Some? ensures q.arrival.value in after <==> q.arrival.value in pending {
      assert q.item < |pos|;
    }
  }

  lemma NumbersGrow(raised: seq<Raised>, start: Rows, r: Rows, t: Rows, p: Raised)
    requires Numbers(raised, p.month, start, r) && |t.orders| == |r.orders| + 1 && |t.requisitions| == |r.requisitions| + 1
    requires p.item == |r.orders| && p.requisition == |r.requisitions|
    ensures Numbers(raised + [p], p.month + 1, start, t) && forall q | q in raised :: q.item < p.item
  {
  }

  lemma OrderIsTold(plan: Plan, opening: int, month: nat, day: int, raised: seq<Raised>, own: seq<Movement>, p: Raised)
    requires p.month == month && (forall q | q in raised :: q.month < month)
    requires plan.replenishes && (opening + Deliveries(raised, month) - IssuedBy(own, day)) as real <= plan.minbe
    requires FillsUp(p.quantity, plan, opening + BalanceAt(own, plan.key, day))
    ensures OrderTold(plan, opening, month, day, raised + [p], own)
  {
    hide FillsUp;
    OneMoreDelivery(raised, p, month);
    assert p in raised + [p];
  }

  /** What an order does to what is on its way. */
  lemma OrderJoins(plan: Plan, s: Stock, opening: int, base: nat, month: nat, when: int, c: OrderChoice)
    requires plan.Valid() && c.Valid() && Sound(plan.key, s, opening, base, when) && when <= AS_OF && LaterThan(s.pending, when)
    ensures var t, p := Replenish(plan, s, when, c), RaisedIn(plan, s, month, when, c);
            && Joined(s.pending, p, t.pending) && LaterThan(t.pending, when)
            && t.onHand == s.onHand && t.rows.movements == s.rows.movements
            && Position(t) == Position(s) + (if p.arrival.Some? then p.arrival.value.quantity else 0)
  {
    ReplenishKeeps(plan, s, opening, base, when, c);
    hide Sound, OrderQuantity, Delivered, LaterThan, PendingTotal;
    InsertIs(plan, s, opening, base, when, c);
    var t, p := Replenish(plan, s, when, c), RaisedIn(plan, s, month, when, c);
    JoinedLater(s.pending, p, t.pending, when);
  }

  lemma JoinedLater(pending: seq<Arrival>, p: Raised, after: seq<Arrival>, day: int)
    requires Joined(pending, p, after) && LaterThan(pending, day) && (p.arrival.Some? ==> p.arrival.value.day > day)
    ensures LaterThan(after, day)
  {
  }

  lemma {:induction false} InsertHolds(pending: seq<Arrival>, a: Arrival)
    ensures forall x :: x in InsertArrival(pending, a) <==> x == a || x in pending
  {
    if pending != [] && pending[0].day <= a.day {
      InsertHolds(pending[1..], a);
      assert pending == [pending[0]] + pending[1..];
    }
  }

  lemma InsertIs(plan: Plan, s: Stock, opening: int, base: nat, when: int, c: OrderChoice)
    ensures Joined(s.pending, RaisedIn(plan, s, 0, when, c), Replenish(plan, s, when, c).pending)
    ensures Replenish(plan, s, when, c).rows.movements == s.rows.movements
  {
    hide OrderQuantity, Delivered;
    var p := RaisedIn(plan, s, 0, when, c);
    if p.arrival.Some? {
      InsertHolds(s.pending, p.arrival.value);
    }
    hide InsertArrival;
  }

  lemma RaisesOneOrder(plan: Plan, s: Stock, when: int, c: OrderChoice)
    ensures var t, q := Replenish(plan, s, when, c).rows, OrderQuantity(plan, s.onHand);
            && |t.orders| == |s.rows.orders| + 1 && |t.requisitions| == |s.rows.requisitions| + 1
            && t.poItems == s.rows.poItems + [PoItem(s.rows.nextPo, q, Min(AS_OF, when + c.wait), Min(AS_OF, when + c.wait) + plan.lead, 0)]
  {
    hide OrderQuantity, Delivered, InsertArrival;
  }

  lemma OrderTells(plan: Plan, opening: int, start: Rows, s: Stock, choices: seq<MonthChoice>, raised: seq<Raised>,
                   c: MonthChoice)
    requires plan.Valid() && c.order.Valid() && |choices| < |plan.demand| && IssueMade(plan, opening, start, s, choices, raised, c)
    requires var day := DayInMonth(|choices|, c.offset);
             Sound(plan.key, s, opening, |start.movements|, day) && EarlierThan(choices, day)
    requires plan.replenishes && Position(s) as real <= plan.minbe
    ensures var day := DayInMonth(|choices|, c.offset);
            Story(plan, opening, start, Replenish(plan, s, day, c.order), choices + [c], raised + [RaisedIn(plan, s, |choices|, day, c.order)])
  {
    hide Sound, Numbers, OrdersWritten, OrderWritten, MonthsTold, IssuesDated, Tracked, Counts, AddsFor, Deliveries;
    hide IssueSum, AllLater, Position;
    hide DayInMonth, IssuedBy, BalanceAt, EarlierThan, IssueTold, OrderTold, FillsUp, LaterThan, WellFormed, Replenish;
    hide OrderQuantity, Joined, Delivered;
    hide OrderChoice.Valid, Plan.Valid;
    var day := DayInMonth(|choices|, c.offset);
    var t, p, own := Replenish(plan, s, day, c.order), RaisedIn(plan, s, |choices|, day, c.order), s.rows.movements[|start.movements|..];
    SoundRows(plan.key, s, opening, |start.movements|, day);
    InWindow(|choices|, c.offset);
    SameLengths(s.rows);
    OrderJoins(plan, s, opening, |start.movements|, |choices|, day, c.order);
    RaisesOneOrder(plan, s, day, c.order);
    MonthsOf(raised, |choices|, start, s.rows);
    NumbersGrow(raised, start, s.rows, t.rows, p);
    DeliveriesOf(raised, |choices|, |choices| + 1);
    OneMoreDelivery(raised, p, |choices| + 1);
    ChoicesGrow(s.rows, plan, choices, raised, c);
    OrderIsWritten(plan, start, s, choices, raised, c);
    FillsItUp(plan, s.onHand);
    OrderIsTold(plan, opening, |choices|, day, raised, own, p);
    MonthsGrow(plan, opening, choices, raised, own, c, raised + [p]);
    TrackedRaise(own, s.pending, raised, p, t.pending);
    CountsRaise(s.rows.poItems, own, s.pending, raised, p, t.pending, Last(t.rows.poItems));
    LaterGrows(t.pending, choices, c);
    MoreRequisitions(raised, |choices|, start, s.rows);
    OrderAdds(start, s, plan, day, c.order);
  }

  lemma MoreRequisitions(raised: seq<Raised>, months: nat, start: Rows, r: Rows)
    requires Numbers(raised, months, start, r)
    ensures |start.requisitions| <= |r.requisitions|
  {
  }

  lemma SoundRows(key: PlantKey, s: Stock, opening: int, base: nat, last: int)
    requires Sound(key, s, opening, base, last)
    ensures WellFormed(s.rows)
  {
  }

  lemma InWindow(month: nat, offset: nat)
    ensures DayInMonth(month, offset) <= AS_OF
  {
  }

  // --- a month, and the whole window -----------------------------------------------------------

  /** The orders raised up to and in one more month. */
  function RaisedWith(plan: Plan, s: Stock, choices: seq<MonthChoice>, raised: seq<Raised>, c: MonthChoice): seq<Raised>
    requires |choices| < |plan.demand| && Placed(s)
  {
    var day := DayInMonth(|choices|, c.offset);
    var issued := Issue(plan.key, ApplyArrivals(plan.key, s, day), plan.demand[|choices|], day, c.toOrder);
    if plan.replenishes && Position(issued) as real <= plan.minbe then raised + [RaisedIn(plan, issued, |choices|, day, c.order)]
    else raised
  }

  lemma MonthTells(plan: Plan, opening: int, start: Rows, s: Stock, choices: seq<MonthChoice>, raised: seq<Raised>,
                   last: int, c: MonthChoice)
    requires plan.Valid() && |choices| < |plan.demand| && c.order.Valid() && Story(plan, opening, start, s, choices, raised)
    requires Sound(plan.key, s, opening, |start.movements|, last)
    requires var day := DayInMonth(|choices|, c.offset); last <= day && EarlierThan(choices, day)
    ensures Placed(s)
    ensures Story(plan, opening, start, Month(plan, s, |choices|, c), choices + [c], RaisedWith(plan, s, choices, raised, c))
  {
    hide Sound, Story, Placed, IssueMade, DayInMonth, EarlierThan, Issue, ApplyArrivals, Replenish, Position, RaisedIn;
    hide LaterThan, Grown;
    hide Plan.Valid, OrderChoice.Valid;
    var day, base := DayInMonth(|choices|, c.offset), |start.movements|;
    InWindow(|choices|, c.offset);
    SoundIsPlaced(plan.key, s, opening, base, last);
    ApplyArrivalsKeeps(plan.key, s, opening, base, last, day);
    ArrivalsTell(plan, opening, start, s, choices, raised, last, day);
    var arrived := ApplyArrivals(plan.key, s, day);
    IsLater(arrived.pending, day);
    IssueTells(plan, opening, start, arrived, choices, raised, c);
    IssueKeeps(plan.key, arrived, opening, base, day, plan.demand[|choices|], c.toOrder);
    var issued := Issue(plan.key, arrived, plan.demand[|choices|], day, c.toOrder);
    if plan.replenishes && Position(issued) as real <= plan.minbe {
      OrderTells(plan, opening, start, issued, choices, raised, c);
    } else {
      NothingDueTells(plan, opening, start, issued, choices, raised, c);
    }
  }

  lemma IsLater(pending: seq<Arrival>, day: int)
    requires forall i | 0 <= i < |pending| :: pending[i].day > day
    ensures LaterThan(pending, day)
  {
  }

  /** The months drawn are in order of their days. */
  lemma DaysInTurn(choices: seq<MonthChoice>)
    requires choices != [] && ValidChoices(choices)
    ensures EarlierThan(Front(choices), LastDay(choices))
  {
    hide DayInMonth, Span, MonthStart, OrderChoice.Valid;
    var n := |choices| - 1;
    assert choices[n].offset < Span(n);
    forall i: nat | i < n ensures DayOf(Front(choices), i) < LastDay(choices) {
      assert choices[i].offset < Span(i);
      DaysIncrease(i, choices[i].offset, n, choices[n].offset);
    }
  }

  lemma NothingTold(plan: Plan, s: Stock)
    requires FreshStart(plan, s)
    ensures Story(plan, s.onHand, s.rows, s, [], [])
  {
    hide WellFormed;
    assert s.rows.movements[|s.rows.movements|..] == [];
  }

  lemma {:induction false} WalkTells(plan: Plan, s: Stock, choices: seq<MonthChoice>) returns (raised: seq<Raised>)
    requires plan.Valid() && ValidChoices(choices) && FreshStart(plan, s)
    ensures Story(plan, s.onHand, s.rows, Walk(plan, s, choices), choices, raised)
  {
    assert |choices| <= |plan.demand|;
    hide Story, FreshStart, OrderChoice.Valid, Plan.Valid, ValidChoices, Walk, DayInMonth, MonthStart, AS_OF, LastDay, Span;
    if choices == [] {
      NothingTold(plan, s);
      assert Walk(plan, s, []) == s by { NoMonths(plan, s); }
      raised := [];
    } else {
      DayAfter(choices);
      var before := WalkTells(plan, s, Front(choices));
      raised := OneMonthMore(plan, s, choices, before);
    }
  }

  lemma NoMonths(plan: Plan, s: Stock)
    ensures Walk(plan, s, []) == s
  {
  }

  lemma OneMonthMore(plan: Plan, s: Stock, choices: seq<MonthChoice>, before: seq<Raised>) returns (raised: seq<Raised>)
    requires plan.Valid() && choices != [] && ValidChoices(choices) && ValidChoices(Front(choices)) && FreshStart(plan, s)
    requires |choices| <= |plan.demand|
    requires Story(plan, s.onHand, s.rows, Walk(plan, s, Front(choices)), Front(choices), before)
    ensures Story(plan, s.onHand, s.rows, Walk(plan, s, choices), choices, raised)
  {
    hide Sound, Placed, Month, Story, RaisedWith, FreshStart, DayInMonth, OrderChoice.Valid, EarlierThan;
    hide Walk, ValidChoices, Plan.Valid, Position, LastDay;
    MonthAhead(plan, s, choices);
    var was, c := Walk(plan, s, Front(choices)), Last(choices);
    MonthTells(plan, s.onHand, s.rows, was, Front(choices), before, LastDay(Front(choices)), c);
    assert Front(choices) + [c] == choices;
    assert Walk(plan, s, choices) == Month(plan, was, |choices| - 1, c) by { WalkStep(plan, s, choices); }
    raised := RaisedWith(plan, was, Front(choices), before, c);
  }

  /** What the next month starts from. */
  lemma MonthAhead(plan: Plan, s: Stock, choices: seq<MonthChoice>)
    requires plan.Valid() && choices != [] && ValidChoices(choices) && ValidChoices(Front(choices)) && FreshStart(plan, s)
    requires |choices| <= |plan.demand|
    ensures var day := DayInMonth(|Front(choices)|, Last(choices).offset);
            && Last(choices).order.Valid() && LastDay(Front(choices)) <= day && EarlierThan(Front(choices), day)
            && Sound(plan.key, Walk(plan, s, Front(choices)), s.onHand, |s.rows.movements|, LastDay(Front(choices)))
            && Placed(Walk(plan, s, Front(choices)))
  {
    hide Sound, Bounded, Placed, Grown, FreshStart, DayInMonth, OrderChoice.Valid, EarlierThan, Walk, ValidChoices;
    hide Plan.Valid;
    DayAfter(choices);
    DaysInTurn(choices);
    WalkKeeps(plan, s, Front(choices));
  }

  lemma WalkStep(plan: Plan, s: Stock, choices: seq<MonthChoice>)
    requires choices != [] && |choices| <= |plan.demand| && Placed(Walk(plan, s, Front(choices)))
    ensures Walk(plan, s, choices) == Month(plan, Walk(plan, s, Front(choices)), |choices| - 1, Last(choices))
  {
    hide Month, Placed;
  }

  /** Everything due by the as-of date is received once all that is on its way arrives after it. */
  lemma DueIsReceived(r: Rows, own: seq<Movement>, pending: seq<Arrival>, raised: seq<Raised>)
    requires WellFormed(r) && Tracked(own, pending, raised) && Counts(r.poItems, pending, raised) && LaterThan(pending, AS_OF)
    requires forall m | m in own :: m.budat <= AS_OF
    ensures ReceiptsTold(r.receipts, raised, own)
  {
    hide WellFormed, ReceiptsDiffer, ReceivesOrder;
    forall p | p in raised
      ensures var due := p.arrival.Some? && p.arrival.value.day <= AS_OF;
              && (due ==> WasReceived(own, p.arrival.value))
              && ReceiptTotal(r.receipts, PO_START + p.item) == if due then p.arrival.value.quantity else 0
    {
      HistoryIsCounted(r, p.item);
      if p.arrival.Some? && p.arrival.value !in pending {
        var m :| m in own && IsReceiptOf(m, p.arrival.value);
      }
    }
  }

  lemma HistoryIsCounted(r: Rows, item: nat)
    requires WellFormed(r) && item < |r.poItems|
    ensures ReceiptTotal(r.receipts, PO_START + item) == r.poItems[item].received
  {
    hide OrdersAgree, OrdersLinked, ReservationsLinked, ReceiptsMatch, MovementsFit, Numbered, KeysKnown;
  }

  lemma OnlyRaised(r: Rows, start: Rows, key: PlantKey, raised: seq<Raised>, months: nat)
    requires Numbers(raised, months, start, r) && NothingFor(start, key) && AddsFor(start, r, key)
    requires |r.orderItems| == |r.orders| && |start.orderItems| == |start.orders|
    ensures NoOtherOrders(r, key, raised)
  {
    hide InTurn;
    forall i: nat | i < |r.orderItems| && r.orderItems[i].key == key ensures Raises(raised, i) {
      assert raised[i - |start.orders|] in raised;
    }
    forall j: nat | j < |r.requisitions| && r.requisitions[j].key == key ensures Requests(raised, j) {
      assert raised[j - |start.requisitions|] in raised;
    }
  }

  /** The rows of a plant walked through the window tell the whole of it, whatever was drawn. On hand and still on
      its way at the end are the opening stock and all that its orders deliver, less all that was issued. */
  lemma SimulatedTells(plan: Plan, s: Stock, choices: seq<MonthChoice>) returns (raised: seq<Raised>)
    requires plan.Valid() && ValidChoices(choices) && |choices| == HISTORY_MONTHS && FreshStart(plan, s) && NothingFor(s.rows, plan.key)
    ensures var t := Simulated(plan, s, choices).rows;
            WalkTold(plan, s.onHand, t, choices, raised) && AddsFor(s.rows, t, plan.key)
    ensures var t := Simulated(plan, s, choices);
            Position(t) == s.onHand + Deliveries(raised, HISTORY_MONTHS) - IssueSum(Of(t.rows.movements, plan.key))
  {
    hide Story, WalkTold, AddsFor, NothingFor, Walk, ApplyArrivals, Placed, ValidChoices, WellFormed, Sound, Grown;
    hide BalanceAt, Position;
    raised := WalkTells(plan, s, choices);
    assert s.(pending := []) == s;
    WalkKeeps(plan, s, choices);
    ArrivalsTell(plan, s.onHand, s.rows, Walk(plan, s, choices), choices, raised, LastDay(choices), AS_OF);
    SimulatedKeeps(plan, s, choices);
    var t := Simulated(plan, s, choices);
    IsLater(t.pending, AS_OF);
    StoryIsTold(plan, s, t, choices, raised);
  }

  lemma StoryIsTold(plan: Plan, s: Stock, t: Stock, choices: seq<MonthChoice>, raised: seq<Raised>)
    requires plan.Valid() && ValidChoices(choices) && |choices| == HISTORY_MONTHS && FreshStart(plan, s) && NothingFor(s.rows, plan.key)
    requires Story(plan, s.onHand, s.rows, t, choices, raised) && LaterThan(t.pending, AS_OF)
    requires Sound(plan.key, t, s.onHand, |s.rows.movements|, AS_OF)
    ensures WalkTold(plan, s.onHand, t.rows, choices, raised) && AddsFor(s.rows, t.rows, plan.key)
    ensures Position(t) == s.onHand + Deliveries(raised, HISTORY_MONTHS) - IssueSum(Of(t.rows.movements, plan.key))
  {
    hide Sound, Numbers, OrdersWritten, MonthsTold, IssuesDated, Tracked, Counts, AddsFor, Deliveries, IssueSum;
    hide AllLater, Position;
    hide NothingFor, LaterThan, ReceiptsTold, NoOtherOrders, ValidChoices, FreshStart, InTurn, Of;
    var own := t.rows.movements[|s.rows.movements|..];
    FreshRows(plan, s);
    hide WellFormed, Plan.Valid;
    SoundRows(plan.key, t, s.onHand, |s.rows.movements|, AS_OF);
    OwnIs(s.rows, t.rows, plan.key);
    OwnDated(plan.key, t, s.onHand, |s.rows.movements|);
    TurnsOf(raised, |choices|, s.rows, t.rows);
    DueIsReceived(t.rows, own, t.pending, raised);
    SameLengths(s.rows);
    SameLengths(t.rows);
    OnlyRaised(t.rows, s.rows, plan.key, raised, |choices|);
  }

  lemma FreshRows(plan: Plan, s: Stock)
    requires plan.Valid() && FreshStart(plan, s)
    ensures WellFormed(s.rows) && |plan.demand| == HISTORY_MONTHS
  {
    hide WellFormed;
  }

  lemma OwnIs(start: Rows, t: Rows, key: PlantKey)
    requires NothingFor(start, key) && AddsFor(start, t, key)
    ensures Of(t.movements, key) == t.movements[|start.movements|..]
  {
    NoneIsNone(start.movements, key, start);
    OfOthers(start, t, key, key);
    assert [] + t.movements[|start.movements|..] == t.movements[|start.movements|..];
  }

  lemma OwnDated(key: PlantKey, t: Stock, opening: int, base: nat)
    requires Sound(key, t, opening, base, AS_OF)
    ensures base <= |t.rows.movements| && forall m | m in t.rows.movements[base..] :: m.budat <= AS_OF
  {
    hide Sound;
    SoundLedger(key, t, opening, base, AS_OF);
    var own := t.rows.movements[base..];
    forall m | m in own ensures m.budat <= AS_OF {
      var i :| 0 <= i < |own| && own[i] == m;
      assert own[i] == t.rows.movements[base + i];
    }
  }

  lemma {:induction false} NoneIsNone(ms: seq<Movement>, key: PlantKey, r: Rows)
    requires NothingFor(r, key) && ms <= r.movements
    ensures Of(ms, key) == []
  {
    if ms != [] {
      assert Last(ms) == r.movements[|ms| - 1];
      NoneIsNone(Front(ms), key, r);
    }
  }
}
