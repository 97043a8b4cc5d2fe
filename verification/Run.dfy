/** A whole run of data-generator/generate.py after the master data: `build_history`, `build_oar_chains`,
    `build_repairs`, the closing tables, and `check`. */
module Run {
  import opened Wrappers
  import opened Calendar
  import opened Ledger
  import opened Sequences
  import opened Balances
  import opened Tables
  import opened Generator
  import opened Closing
  import A = Additions
  import Check
  import Consistency
  import C = OarChains
  import H = Histories
  import O = OnDemandStock
  import R = Repairs
  import W = StockWalk

  /** On hand and in inspection together are the opening stock plus the movements, and neither is negative. */
  ghost predicate Balanced(e: MaterialPlant, movements: seq<Movement>)
    reads e
  {
    e.onHand >= 0 && e.qualityStock >= 0 && e.onHand + e.qualityStock == e.opening + Net(movements, e.Key())
  }

  /** And nothing is in inspection, and on no day, taking the movements by their dates, was there less
      than nothing. */
  ghost predicate Steady(e: MaterialPlant, movements: seq<Movement>)
    reads e
  {
    Balanced(e, movements) && e.qualityStock == 0 && R.NeverShort(e.opening, movements, e.Key())
  }

  /** Nothing has happened to it yet. */
  ghost predicate Untouched(e: MaterialPlant, r: Rows)
    reads e
  {
    e.onHand == e.opening && e.qualityStock == 0 && A.NothingFor(r, e.Key())
  }

  /** What was drawn for a plant and where it stands in the tables: the months of its window and the orders
      they raised, or its chains and where their first reservation, requisition and order are. */
  datatype Story =
    | Walked(choices: seq<W.MonthChoice>, raised: seq<H.Raised>)
    | Chained(reservation: nat, requisition: nat, order: nat, chains: seq<C.ChainChoice>)

  lemma NothingCounts(r: Rows, key: PlantKey)
    requires A.NothingFor(r, key)
    ensures Of(r.movements, key) == [] && Net(r.movements, key) == 0
    ensures forall day :: BalanceAt(r.movements, key, day) == 0
  {
    H.NoneIsNone(r.movements, key, r);
    forall day ensures BalanceAt(r.movements, key, day) == 0 {
      NoneOfZero(r.movements, key, day);
    }
    NoneOfZero(r.movements, key, AS_OF);
  }

  lemma UntouchedIsSteady(e: MaterialPlant, r: Rows)
    requires Untouched(e, r) && e.Valid()
    ensures Steady(e, r.movements)
  {
    NothingCounts(r, e.Key());
  }

  /** What is added for one material-plant leaves every other as it was. */
  lemma OthersKeep(r: Rows, t: Rows, key: PlantKey, other: PlantKey)
    requires A.AddsFor(r, t, key) && other != key
    ensures Net(t.movements, other) == Net(r.movements, other)
    ensures forall day :: BalanceAt(t.movements, other, day) == BalanceAt(r.movements, other, day)
    ensures Of(t.movements, other) == Of(r.movements, other)
  {
    var own := t.movements[|r.movements|..];
    assert t.movements == r.movements + own;
    NetOfOwn(own, key);
    NetConcat(r.movements, own, other);
    forall day ensures BalanceAt(t.movements, other, day) == BalanceAt(r.movements, other, day) {
      BalanceConcat(r.movements, own, other, day);
      BalanceOfOthers(own, key, other, day);
    }
    A.OfOthers(r, t, key, other);
    assert Of(r.movements, other) + [] == Of(r.movements, other);
  }

  // --- what stays as documents are added for another plant ----------------------------------------

  /** Nothing said of the material-plant has changed from `r` to `t`. */
  ghost predicate SameFor(r: Rows, t: Rows, key: PlantKey) {
    && Net(t.movements, key) == Net(r.movements, key)
    && (forall day :: BalanceAt(t.movements, key, day) == BalanceAt(r.movements, key, day))
    && (forall onHand | O.Settled(key, onHand, r) :: O.Settled(key, onHand, t))
    && O.CountFor(key, t.reservations) == O.CountFor(key, r.reservations)
    && (A.NothingFor(r, key) ==> A.NothingFor(t, key))
  }

  /** Documents added for one material-plant change nothing of any other. */
  lemma OthersStay(r: Rows, t: Rows, key: PlantKey, other: PlantKey)
    requires WellFormed(r) && A.AddsFor(r, t, key) && other != key
    ensures SameFor(r, t, other)
  {
    hide WellFormed, A.AddsFor, O.Settled, A.NothingFor;
    OthersKeep(r, t, key, other);
    forall onHand | O.Settled(other, onHand, r) ensures O.Settled(other, onHand, t) {
      O.SettledKept(r, t, key, other, onHand);
    }
    CountStays(r, t, key, other);
    if A.NothingFor(r, other) {
      A.StillNothing(r, t, key, other);
    }
  }

  lemma CountStays(r: Rows, t: Rows, key: PlantKey, other: PlantKey)
    requires A.AddsFor(r, t, key) && other != key
    ensures O.CountFor(other, t.reservations) == O.CountFor(other, r.reservations)
  {
    O.OthersLeft(r.reservations, t.reservations, key, other, [], []);
  }

  lemma SameStays(e: MaterialPlant, r: Rows, t: Rows)
    requires SameFor(r, t, e.Key())
    ensures Balanced(e, r.movements) ==> Balanced(e, t.movements)
    ensures Steady(e, r.movements) ==> Steady(e, t.movements)
    ensures R.NeverShort(e.opening, t.movements, e.Key()) <==> R.NeverShort(e.opening, r.movements, e.Key())
    ensures OnDemandSettled(e, r) ==> OnDemandSettled(e, t)
    ensures Untouched(e, r) ==> Untouched(e, t)
  {
    hide O.Settled, A.NothingFor;
    if R.NeverShort(e.opening, r.movements, e.Key()) {
      forall day ensures e.opening + BalanceAt(t.movements, e.Key(), day) >= 0 {
        assert e.opening + BalanceAt(r.movements, e.Key(), day) >= 0;
      }
    }
    if R.NeverShort(e.opening, t.movements, e.Key()) {
      forall day ensures e.opening + BalanceAt(r.movements, e.Key(), day) >= 0 {
        assert e.opening + BalanceAt(t.movements, e.Key(), day) >= 0;
      }
    }
  }

  // --- history ----------------------------------------------------------------------------------

  /** The plant's rows tell its window, or its chains. */
  ghost predicate Told(e: MaterialPlant, r: Rows, story: Story) {
    match story
    case Walked(choices, raised) => !e.isOar && H.WalkTold(e.plan, e.opening, r, choices, raised)
    case Chained(reservation, requisition, order, chains) =>
      && e.isOar && 1 <= |chains| <= 3 && (forall c | c in chains :: c.Valid())
      && ChainsWritten(r, reservation, e.Key(), e.plan.lead, chains)
      && NoOtherChains(r, e.Key(), reservation, requisition, order, chains)
  }

  lemma ToldStays(e: MaterialPlant, r: Rows, t: Rows, key: PlantKey, story: Story)
    requires WellFormed(r) && A.AddsFor(r, t, key) && e.Key() != key && Told(e, r, story)
    ensures Told(e, t, story)
  {
    hide WellFormed, A.AddsFor, H.WalkTold, ChainsWritten, NoOtherChains, C.ChainChoice.Valid;
    match story
    case Walked(choices, raised) => H.WalkStaysTold(r, t, key, e.plan, e.opening, choices, raised);
    case Chained(reservation, requisition, order, chains) =>
      ChainsStayWritten(r, t, key, reservation, e.Key(), e.plan.lead, chains);
      OthersKeep(r, t, key, e.Key());
      NoneChained(r, t, key, e.Key(), reservation, requisition, order, chains);
  }

  /** `simulate` on a material-plant nothing has happened to. Its rows tell the whole window: every month's issue
      is the smaller of demand and dated stock, every order due at the reorder point is there, and every
      delivery due is received. */
  method SimulateOne(d: Dataset, e: MaterialPlant) returns (ghost story: Story)
    requires e.Valid() && !e.isOar && WellFormed(d.Snapshot()) && e.Key() in d.plants && Untouched(e, d.Snapshot())
    modifies d, e
    ensures WellFormed(d.Snapshot()) && Steady(e, d.movements) && A.AddsFor(old(d.Snapshot()), d.Snapshot(), e.Key())
    ensures story.Walked? && Told(e, d.Snapshot(), story)
    ensures OnOrder(e, d.Snapshot(), story, old(e.openPoQty))
    ensures d.reservations == old(d.reservations)
  {
    ghost var before := d.Snapshot();
    ghost var choices := Simulate(d, e);
    hide WellFormed, W.Simulated, W.ValidChoices, W.Sound, A.AddsFor, A.NothingFor, H.WalkTold, W.Position;
    ghost var start := W.Stock(before, e.opening, []);
    W.SimulatedKeeps(e.plan, start, choices);
    ghost var raised := H.SimulatedTells(e.plan, start, choices);
    story := Walked(choices, raised);
    NothingCounts(before, e.Key());
    LedgerOf(e.Key(), W.Simulated(e.plan, start, choices), e.opening, |before.movements|);
    SimulationSettles(e.Key(), e.opening, before.movements, d.movements, e.onHand);
    StillOnOrder(e, W.Simulated(e.plan, start, choices));
  }

  /** On hand and on order together are the opening stock and all that its orders deliver, less all issued. */
  ghost predicate OnOrder(e: MaterialPlant, r: Rows, story: Story, ordered: int)
    requires story.Walked?
    reads e
  {
    e.onHand + e.openPoQty - ordered ==
    e.opening + H.Deliveries(story.raised, HISTORY_MONTHS) - H.IssueSum(Of(r.movements, e.Key()))
  }

  lemma StillOnOrder(e: MaterialPlant, t: W.Stock)
    ensures W.Position(t) == t.onHand + W.PendingTotal(t.pending)
  {
  }

  lemma LedgerOf(key: PlantKey, s: W.Stock, opening: int, base: nat)
    requires W.Sound(key, s, opening, base, AS_OF)
    ensures WellFormed(s.rows) && base <= |s.rows.movements| && W.LedgerSound(key, opening, s.rows.movements[base..], s.onHand, AS_OF)
  {
    hide WellFormed;
  }

  lemma SimulationSettles(key: PlantKey, opening: int, before: seq<Movement>, after: seq<Movement>, onHand: int)
    requires before <= after && W.LedgerSound(key, opening, after[|before|..], onHand, AS_OF)
    requires Net(before, key) == 0 && forall day :: BalanceAt(before, key, day) == 0
    requires forall day :: opening + BalanceAt(after[|before|..], key, day) >= 0
    ensures onHand >= 0 && onHand == opening + Net(after, key) && R.NeverShort(opening, after, key)
  {
    var own := after[|before|..];
    assert after == before + own;
    NetOfOwn(own, key);
    NetConcat(before, own, key);
    forall day ensures opening + BalanceAt(after, key, day) >= 0 {
      BalanceConcat(before, own, key, day);
    }
  }

  /** A plant out of OAR scope is untouched until it is walked; one in scope stays so. */
  ghost predicate HistoryBuilt(e: MaterialPlant, r: Rows, built: bool, story: Story)
    reads e
  {
    if !built then Untouched(e, r)
    else Steady(e, r.movements) && if e.isOar then Untouched(e, r) else story.Walked? && Told(e, r, story) && OnOrder(e, r, story, 0)
  }

  lemma OnOrderStays(e: MaterialPlant, r: Rows, t: Rows, key: PlantKey, story: Story)
    requires A.AddsFor(r, t, key) && e.Key() != key && story.Walked? && OnOrder(e, r, story, 0)
    ensures OnOrder(e, t, story, 0)
  {
    OthersKeep(r, t, key, e.Key());
  }

  lemma HistoryStays(e: MaterialPlant, r: Rows, t: Rows, key: PlantKey, built: bool, story: Story)
    requires WellFormed(r) && A.AddsFor(r, t, key) && e.Key() != key && HistoryBuilt(e, r, built, story)
    ensures HistoryBuilt(e, t, built, story)
  {
    hide WellFormed, A.AddsFor, Untouched, Steady, Told, OnOrder, SameFor;
    OthersStay(r, t, key, e.Key());
    SameStays(e, r, t);
    if built && !e.isOar {
      ToldStays(e, r, t, key, story);
      OnOrderStays(e, r, t, key, story);
    }
  }

  lemma RestHistory(entries: seq<MaterialPlant>, i: nat, r: Rows, t: Rows, stories: seq<Story>)
    requires i < |entries| == |stories| && DistinctKeys(entries) && WellFormed(r) && A.AddsFor(r, t, entries[i].Key())
    ensures forall k, built | 0 <= k < |entries| && k != i && HistoryBuilt(entries[k], r, built, stories[k]) ::
              HistoryBuilt(entries[k], t, built, stories[k])
  {
    hide WellFormed, A.AddsFor, HistoryBuilt;
    forall k, built | 0 <= k < |entries| && k != i && HistoryBuilt(entries[k], r, built, stories[k])
      ensures HistoryBuilt(entries[k], t, built, stories[k])
    {
      HistoryStays(entries[k], r, t, entries[i].Key(), built, stories[k]);
    }
  }

  const UNTOLD: Story := Walked([], [])

  /** Every plant out of OAR scope is walked through the window, and its rows tell it. */
  method BuildHistory(d: Dataset, entries: seq<MaterialPlant>) returns (ghost stories: seq<Story>)
    requires DistinctKeys(entries) && WellFormed(d.Snapshot())
    requires forall e | e in entries :: e.Valid() && e.Key() in d.plants && Untouched(e, d.Snapshot()) && e.openPoQty == 0
    modifies d, entries
    ensures WellFormed(d.Snapshot()) && d.reservations == old(d.reservations) && |stories| == |entries|
    ensures forall i | 0 <= i < |entries| :: HistoryBuilt(entries[i], d.Snapshot(), true, stories[i])
  {
    hide WellFormed, Untouched, Steady, Told, OnOrder;
    stories := seq(|entries|, _ => UNTOLD);
    for i := 0 to |entries|
      invariant WellFormed(d.Snapshot()) && d.reservations == old(d.reservations) && |stories| == |entries|
      invariant forall k | 0 <= k < |entries| :: HistoryBuilt(entries[k], d.Snapshot(), k < i, stories[k])
      invariant forall k | i <= k < |entries| :: entries[k].openPoQty == 0
    {
      var e := entries[i];
      ghost var before := d.Snapshot();
      if e.isOar {
        UntouchedIsSteady(e, d.Snapshot());
        continue;
      }
      ghost var story := SimulateOne(d, e);
      RestHistory(entries, i, before, d.Snapshot(), stories);
      stories := stories[i := story];
    }
  }
  // --- OAR chains ---------------------------------------------------------------------------------

  lemma ChainSettles(key: PlantKey, lead: nat, opening: int, before: seq<Movement>, after: seq<Movement>, c: C.ChainChoice)
    requires c.Valid() && before <= after && C.ChainMovements(after[|before|..], key, lead, c)
    requires R.NeverShort(opening, before, key)
    ensures R.NeverShort(opening, after, key)
    ensures Net(after, key) == Net(before, key) + c.ReceivedQuantity() - c.IssuedQuantity()
    ensures c.IssuedQuantity() <= c.ReceivedQuantity()
  {
    var own := after[|before|..];
    assert after == before + own;
    NetConcat(before, own, key);
    C.ChainNeverOwes(own, key, lead, c, AS_OF);
    C.QuantitiesNest(c);
    forall day ensures opening + BalanceAt(after, key, day) >= 0 {
      BalanceConcat(before, own, key, day);
      C.ChainNeverOwes(own, key, lead, c, day);
    }
  }

  /** One chain: what is drawn is what its reservation, requisition, order, receipt and issue say. */
  method BuildChain(d: Dataset, e: MaterialPlant) returns (c: C.ChainChoice)
    requires e.Key() in d.plants && WellFormed(d.Snapshot()) && Steady(e, d.movements)
    requires O.Settled(e.Key(), e.onHand, d.Snapshot())
    modifies d, e`onHand
    ensures c.Valid() && WellFormed(d.Snapshot()) && Steady(e, d.movements)
    ensures A.AddsFor(old(d.Snapshot()), d.Snapshot(), e.Key()) && AddsOneChain(old(d.Snapshot()), d.Snapshot(), c)
    ensures O.ChainWritten(d.Snapshot(), |old(d.reservations)|, e.Key(), e.plan.lead, c)
    ensures C.ChainMovements(d.movements[|old(d.movements)|..], e.Key(), e.plan.lead, c)
    ensures e.onHand == old(e.onHand) + c.ReceivedQuantity() - c.IssuedQuantity()
    ensures O.Settled(e.Key(), e.onHand, d.Snapshot())
    ensures O.CountFor(e.Key(), d.reservations) == O.CountFor(e.Key(), old(d.reservations)) + 1
  {
    hide WellFormed, C.Chain, C.ChainMovements, C.ChainChoice.Valid, A.AddsFor, O.ChainCounted, O.ChainDated, O.AsDrawn;
    hide O.Settled, AddsOneChain;
    ghost var before, onHand := d.Snapshot(), e.onHand;
    c := BuildOarChain(d, e);
    C.ChainKeeps(e.Key(), e.plan.lead, before, c);
    ChainSettles(e.Key(), e.plan.lead, e.opening, before.movements, d.movements, c);
    O.ChainAdds(e.Key(), e.plan.lead, before, c);
    O.ChainStock(before, d.Snapshot(), e.Key(), c, onHand);
    ChainIsOne(e.Key(), e.plan.lead, before, c);
  }

  /** How many orders the chains have: none while a reservation is open. */
  function OrdersOf(chains: seq<C.ChainChoice>): nat {
    if chains == [] then 0 else OrdersOf(Front(chains)) + if Last(chains).outcome == C.OpenReservation then 0 else 1
  }

  /** How many movements: a receipt for each order, and an issue unless the outcome awaits it. */
  function MovementsOf(chains: seq<C.ChainChoice>): nat {
    if chains == [] then 0
    else MovementsOf(Front(chains)) +
         if Last(chains).outcome == C.OpenReservation then 0
         else if Last(chains).outcome in {C.ReceivedNotUsed, C.UseOverdue} then 1 else 2
  }

  ghost predicate AddsOneChain(r: Rows, t: Rows, c: C.ChainChoice) {
    && |t.reservations| == |r.reservations| + 1 && |t.requisitions| == |r.requisitions| + 1
    && |t.orderItems| == |r.orderItems| + OrdersOf([c]) && |t.movements| == |r.movements| + MovementsOf([c])
  }

  lemma ChainIsOne(key: PlantKey, lead: nat, r: Rows, c: C.ChainChoice)
    requires c.Valid()
    ensures AddsOneChain(r, C.Chain(key, lead, r, c), c)
  {
    C.UsedUnlessAwaited(c);
    hide C.Chain, C.ChainChoice.Valid, C.ChainChoice.ReceivedQuantity, C.ChainChoice.IssuedQuantity;
    O.ChainRows(key, lead, r, c);
    OneChain(c);
    assert |O.ChainIssues(key, lead, r, c)| == MovementsOf([c]);
  }

  lemma OneChain(c: C.ChainChoice)
    ensures OrdersOf([c]) == if c.outcome == C.OpenReservation then 0 else 1
    ensures MovementsOf([c]) ==
            if c.outcome == C.OpenReservation then 0 else if c.outcome in {C.ReceivedNotUsed, C.UseOverdue} then 1 else 2
  {
    assert Front([c]) == [] && Last([c]) == c;
  }

  lemma OneChainMore(chains: seq<C.ChainChoice>, c: C.ChainChoice)
    ensures OrdersOf(chains + [c]) == OrdersOf(chains) + OrdersOf([c])
    ensures MovementsOf(chains + [c]) == MovementsOf(chains) + MovementsOf([c])
  {
    assert Front(chains + [c]) == chains && Last(chains + [c]) == c;
    OneChain(c);
  }

  /** The plant's reservations are one to three, each served, and it holds what they leave. */
  ghost predicate OnDemandSettled(e: MaterialPlant, r: Rows)
    reads e
  {
    O.Settled(e.Key(), e.onHand, r) && 1 <= O.CountFor(e.Key(), r.reservations) <= 3
  }

  /** From reservation `from` on, the chains written are these. */
  ghost predicate ChainsWritten(r: Rows, from: nat, key: PlantKey, lead: nat, chains: seq<C.ChainChoice>) {
    forall n | 0 <= n < |chains| :: O.ChainWritten(r, from + n, key, lead, chains[n])
  }

  /** And the plant has no other reservation, requisition, order or movement. */
  ghost predicate NoOtherChains(r: Rows, key: PlantKey, reservation: nat, requisition: nat, order: nat,
                                chains: seq<C.ChainChoice>) {
    && (forall i | 0 <= i < |r.reservations| && r.reservations[i].key == key :: reservation <= i < reservation + |chains|)
    && (forall i | 0 <= i < |r.requisitions| && r.requisitions[i].key == key :: requisition <= i < requisition + |chains|)
    && (forall i | 0 <= i < |r.orderItems| && r.orderItems[i].key == key :: order <= i < order + OrdersOf(chains))
    && |Of(r.movements, key)| == MovementsOf(chains)
  }

  lemma ChainsStayWritten(r: Rows, t: Rows, key: PlantKey, from: nat, of: PlantKey, lead: nat, chains: seq<C.ChainChoice>)
    requires WellFormed(r) && A.AddsFor(r, t, key) && ChainsWritten(r, from, of, lead, chains)
    ensures ChainsWritten(t, from, of, lead, chains)
  {
    hide WellFormed, A.AddsFor, O.ChainWritten;
    forall n | 0 <= n < |chains| ensures O.ChainWritten(t, from + n, of, lead, chains[n]) {
      O.WrittenKept(r, t, key, from + n, of, lead, chains[n]);
    }
  }

  lemma NoneChained(r: Rows, t: Rows, key: PlantKey, other: PlantKey, reservation: nat, requisition: nat, order: nat,
                    chains: seq<C.ChainChoice>)
    requires A.AddsFor(r, t, key) && other != key && Of(t.movements, other) == Of(r.movements, other)
    requires NoOtherChains(r, other, reservation, requisition, order, chains)
    ensures NoOtherChains(t, other, reservation, requisition, order, chains)
  {
  }

  /** The chains built so far, and nothing else for the plant. */
  ghost predicate ChainsSoFar(start: Rows, r: Rows, key: PlantKey, lead: nat, chains: seq<C.ChainChoice>) {
    && ChainsWritten(r, |start.reservations|, key, lead, chains)
    && NoOtherChains(r, key, |start.reservations|, |start.requisitions|, |start.orderItems|, chains)
    && |r.reservations| == |start.reservations| + |chains| && |r.requisitions| == |start.requisitions| + |chains|
    && |r.orderItems| == |start.orderItems| + OrdersOf(chains)
  }

  lemma OneMoreChain(start: Rows, r: Rows, t: Rows, key: PlantKey, lead: nat, chains: seq<C.ChainChoice>, c: C.ChainChoice)
    requires WellFormed(r) && A.AddsFor(r, t, key) && ChainsSoFar(start, r, key, lead, chains)
    requires AddsOneChain(r, t, c) && O.ChainWritten(t, |r.reservations|, key, lead, c)
    ensures ChainsSoFar(start, t, key, lead, chains + [c])
  {
    hide WellFormed, O.ChainWritten, A.AddsFor, OrdersOf, MovementsOf;
    ChainsStayWritten(r, t, key, |start.reservations|, key, lead, chains);
    A.OfOthers(r, t, key, key);
    OneChainMore(chains, c);
    MovementsAdded(r, t, key);
    forall n | 0 <= n < |chains| + 1 ensures O.ChainWritten(t, |start.reservations| + n, key, lead, (chains + [c])[n]) {
    }
    OnlyTheseChains(start, r, t, key, chains, c);
  }

  lemma MovementsAdded(r: Rows, t: Rows, key: PlantKey)
    requires A.AddsFor(r, t, key)
    ensures r.movements <= t.movements
  {
  }

  lemma OnlyTheseChains(start: Rows, r: Rows, t: Rows, key: PlantKey, chains: seq<C.ChainChoice>, c: C.ChainChoice)
    requires A.AddsFor(r, t, key) && AddsOneChain(r, t, c)
    requires NoOtherChains(r, key, |start.reservations|, |start.requisitions|, |start.orderItems|, chains)
    requires |r.reservations| == |start.reservations| + |chains| && |r.requisitions| == |start.requisitions| + |chains|
    requires |r.orderItems| == |start.orderItems| + OrdersOf(chains)
    ensures NoOtherChains(t, key, |start.reservations|, |start.requisitions|, |start.orderItems|, chains + [c])
  {
    A.OfOthers(r, t, key, key);
    OneChainMore(chains, c);
    hide OrdersOf, MovementsOf;
  }

  lemma NoChains(start: Rows, key: PlantKey, lead: nat)
    requires A.NothingFor(start, key)
    ensures ChainsSoFar(start, start, key, lead, [])
  {
    NothingCounts(start, key);
  }

  /** One to three chains for a plant in OAR scope, and nothing else. */
  method BuildChains(d: Dataset, e: MaterialPlant) returns (chains: seq<C.ChainChoice>)
    requires e.Key() in d.plants && WellFormed(d.Snapshot()) && Steady(e, d.movements) && A.NothingFor(d.Snapshot(), e.Key())
    requires O.Settled(e.Key(), e.onHand, d.Snapshot()) && O.CountFor(e.Key(), d.reservations) == 0
    modifies d, e`onHand
    ensures 1 <= |chains| <= 3 && forall c | c in chains :: c.Valid()
    ensures ChainsSoFar(old(d.Snapshot()), d.Snapshot(), e.Key(), e.plan.lead, chains)
    ensures WellFormed(d.Snapshot()) && Steady(e, d.movements) && OnDemandSettled(e, d.Snapshot())
    ensures A.AddsFor(old(d.Snapshot()), d.Snapshot(), e.Key())
  {
    hide WellFormed, C.ChainChoice.Valid, Steady, A.AddsFor, A.NothingFor, O.ChainWritten, O.Settled, C.ChainMovements;
    hide ChainsSoFar, AddsOneChain;
    ghost var start := d.Snapshot();
    A.AddsNothing(start, e.Key());
    NoChains(start, e.Key(), e.plan.lead);
    chains := [];
    var count := RandInt(1, 3);
    while |chains| < count
      invariant |chains| <= count && forall c | c in chains :: c.Valid()
      invariant ChainsSoFar(start, d.Snapshot(), e.Key(), e.plan.lead, chains)
      invariant WellFormed(d.Snapshot()) && Steady(e, d.movements)
      invariant O.Settled(e.Key(), e.onHand, d.Snapshot()) && O.CountFor(e.Key(), d.reservations) == |chains|
      invariant A.AddsFor(start, d.Snapshot(), e.Key())
    {
      ghost var before := d.Snapshot();
      var c := BuildChain(d, e);
      A.AddsTwice(start, before, d.Snapshot(), e.Key());
      OneMoreChain(start, before, d.Snapshot(), e.Key(), e.plan.lead, chains, c);
      chains := chains + [c];
    }
  }

  /** A plant in OAR scope has its chains, or nothing yet; any other has its window. */
  ghost predicate ChainsBuilt(e: MaterialPlant, r: Rows, built: bool, story: Story)
    reads e
  {
    && Steady(e, r.movements)
    && if e.isOar && !built then Untouched(e, r) else Told(e, r, story) && (e.isOar ==> OnDemandSettled(e, r))
  }

  lemma ChainsStay(e: MaterialPlant, r: Rows, t: Rows, key: PlantKey, built: bool, story: Story)
    requires WellFormed(r) && A.AddsFor(r, t, key) && e.Key() != key && ChainsBuilt(e, r, built, story)
    ensures ChainsBuilt(e, t, built, story)
  {
    hide WellFormed, A.AddsFor, Untouched, Steady, Told, OnDemandSettled, SameFor;
    OthersStay(r, t, key, e.Key());
    SameStays(e, r, t);
    if !(e.isOar && !built) {
      ToldStays(e, r, t, key, story);
    }
  }

  lemma RestChains(entries: seq<MaterialPlant>, i: nat, r: Rows, t: Rows, stories: seq<Story>)
    requires i < |entries| == |stories| && DistinctKeys(entries) && WellFormed(r) && A.AddsFor(r, t, entries[i].Key())
    ensures forall k, built | 0 <= k < |entries| && k != i && ChainsBuilt(entries[k], r, built, stories[k]) ::
              ChainsBuilt(entries[k], t, built, stories[k])
  {
    hide WellFormed, A.AddsFor, ChainsBuilt;
    forall k, built | 0 <= k < |entries| && k != i && ChainsBuilt(entries[k], r, built, stories[k])
      ensures ChainsBuilt(entries[k], t, built, stories[k])
    {
      ChainsStay(entries[k], r, t, entries[i].Key(), built, stories[k]);
    }
  }

  /** Afterwards every plant in OAR scope has one to three chains, as drawn, and holds what its orders received
      less what was issued; any other has its window. */
  method BuildOarChains(d: Dataset, entries: seq<MaterialPlant>, ghost walked: seq<Story>) returns (ghost stories: seq<Story>)
    requires DistinctKeys(entries) && WellFormed(d.Snapshot()) && |walked| == |entries|
    requires forall e | e in entries :: e.Valid() && e.Key() in d.plants
    requires forall i | 0 <= i < |entries| :: HistoryBuilt(entries[i], d.Snapshot(), true, walked[i])
    modifies d, entries
    ensures WellFormed(d.Snapshot()) && |stories| == |entries|
    ensures forall i | 0 <= i < |entries| :: ChainsBuilt(entries[i], d.Snapshot(), true, stories[i])
  {
    stories := walked;
    NoChainsYet(entries, d.Snapshot(), walked);
    hide WellFormed, A.AddsFor, ChainsBuilt, HistoryBuilt;
    for i := 0 to |entries|
      invariant WellFormed(d.Snapshot()) && |stories| == |entries|
      invariant forall k | 0 <= k < |entries| :: ChainsBuilt(entries[k], d.Snapshot(), k < i, stories[k])
    {
      var e := entries[i];
      ghost var before := d.Snapshot();
      if e.isOar {
        ghost var story := BuildChainsFor(d, e, stories[i]);
        RestChains(entries, i, before, d.Snapshot(), stories);
        stories := stories[i := story];
      } else {
        NeverBuilt(e, before, stories[i]);
      }
    }
  }

  lemma NeverBuilt(e: MaterialPlant, r: Rows, story: Story)
    requires !e.isOar && ChainsBuilt(e, r, false, story)
    ensures ChainsBuilt(e, r, true, story)
  {
    hide Steady, Told, Untouched;
  }

  lemma SettledUntouched(e: MaterialPlant, r: Rows)
    requires Untouched(e, r) && e.opening == 0
    ensures O.Settled(e.Key(), e.onHand, r) && O.CountFor(e.Key(), r.reservations) == 0
  {
    NoneLeft(e.Key(), r, r.reservations);
  }

  lemma {:induction false} NoneLeft(key: PlantKey, r: Rows, reservations: seq<Reservation>)
    requires A.NothingFor(r, key) && reservations <= r.reservations
    ensures O.StockLeft(key, reservations, r.requisitions, r.receipts) == 0 && O.CountFor(key, reservations) == 0
  {
    if reservations != [] {
      assert Last(reservations) == r.reservations[|reservations| - 1];
      NoneLeft(key, r, Front(reservations));
    }
  }

  method BuildChainsFor(d: Dataset, e: MaterialPlant, ghost was: Story) returns (ghost story: Story)
    requires e.Valid() && e.isOar && e.Key() in d.plants && WellFormed(d.Snapshot()) && ChainsBuilt(e, d.Snapshot(), false, was)
    modifies d, e`onHand
    ensures WellFormed(d.Snapshot()) && ChainsBuilt(e, d.Snapshot(), true, story)
    ensures A.AddsFor(old(d.Snapshot()), d.Snapshot(), e.Key())
  {
    hide WellFormed, A.AddsFor, A.NothingFor, O.Settled, O.CountFor, Steady, OnDemandSettled, ChainsWritten;
    hide NoOtherChains, C.ChainChoice.Valid;
    ghost var start := d.Snapshot();
    SettledUntouched(e, start);
    var chains := BuildChains(d, e);
    story := Chained(|start.reservations|, |start.requisitions|, |start.orderItems|, chains);
  }

  lemma NoChainsYet(entries: seq<MaterialPlant>, r: Rows, stories: seq<Story>)
    requires |stories| == |entries| && forall i | 0 <= i < |entries| :: HistoryBuilt(entries[i], r, true, stories[i])
    ensures forall i | 0 <= i < |entries| :: ChainsBuilt(entries[i], r, false, stories[i])
  {
    hide Steady, Untouched, Told, OnOrder;
  }

  // --- repairs --------------------------------------------------------------------------------------

  /** What was drawn for a repair case, and where its documents stand. */
  datatype Case = Case(choice: R.RepairChoice, places: R.Places)

  /** Since `h`, no document was added for the material-plant. */
  ghost predicate NothingSince(h: Rows, r: Rows, key: PlantKey) {
    && A.Extends(h, r) && Of(r.movements[|h.movements|..], key) == []
    && (forall i | |h.reservations| <= i < |r.reservations| :: r.reservations[i].key != key)
    && (forall i | |h.requisitions| <= i < |r.requisitions| :: r.requisitions[i].key != key)
    && forall i | |h.orderItems| <= i < |r.orderItems| :: r.orderItems[i].key != key
  }

  /** Since `h`, the case's documents were added for the material-plant, and no others. */
  ghost predicate CaseSince(h: Rows, r: Rows, key: PlantKey, lead: nat, c: Case) {
    && A.Extends(h, r)
    && (forall i | |h.reservations| <= i < |r.reservations| :: r.reservations[i].key == key <==> i == c.places.reservation)
    && (forall i | |h.requisitions| <= i < |r.requisitions| :: r.requisitions[i].key == key <==> i == c.places.requisition)
    && (forall i | |h.orderItems| <= i < |r.orderItems| :: r.orderItems[i].key == key <==> i == c.places.item)
    && exists d: R.Dates :: R.AreDates(d, lead, c.choice)
         && R.CaseWritten(r, c.places, key, d, c.choice.outcome in {R.Returned, R.BackInStock})
         && R.CasePosted(Of(r.movements[|h.movements|..], key), c.places, key, d, c.choice)
  }

  /** What the repairs did to a plant. Without a case nothing was added for it; with one, the case's documents,
      its removal and, if it came back, its return. It is balanced still, and its dated stock falls short on
      some day exactly when, on some day the unit of its case is away, none had been on hand. */
  ghost predicate AfterRepair(e: MaterialPlant, h: Rows, r: Rows, c: Option<Case>)
    reads e
  {
    && Balanced(e, r.movements)
    && match c
       case None =>
         NothingSince(h, r, e.Key()) && e.qualityStock == 0 && R.NeverShort(e.opening, r.movements, e.Key())
       case Some(repair) =>
         && e.isRepairable && repair.choice.Valid() && CaseSince(h, r, e.Key(), e.plan.lead, repair)
         && e.qualityStock == (if repair.choice.outcome == R.Returned then 1 else 0)
         && (R.NeverShort(e.opening, r.movements, e.Key()) <==>
             forall day | R.Away(repair.choice, day) :: e.opening + BalanceAt(h.movements, e.Key(), day) >= 1)
  }

  /** Before its turn, nothing has been added for a plant since `h`. */
  ghost predicate BeforeRepair(e: MaterialPlant, h: Rows, r: Rows)
    reads e
  {
    NothingSince(h, r, e.Key()) && Steady(e, r.movements)
  }

  lemma SameSince(history: seq<Movement>, movements: seq<Movement>, key: PlantKey)
    requires history <= movements && Of(movements[|history|..], key) == []
    ensures Net(movements, key) == Net(history, key)
    ensures forall day :: BalanceAt(movements, key, day) == BalanceAt(history, key, day)
  {
    var since := movements[|history|..];
    assert movements == history + since;
    NetConcat(history, since, key);
    NoneOfZero(since, key, AS_OF);
    forall day ensures BalanceAt(movements, key, day) == BalanceAt(history, key, day) {
      BalanceConcat(history, since, key, day);
      NoneOfZero(since, key, day);
    }
  }

  lemma AddedSince(history: seq<Movement>, r: Rows, t: Rows, key: PlantKey, other: PlantKey)
    requires history <= r.movements && A.AddsFor(r, t, key)
    ensures history <= t.movements
    ensures Of(t.movements[|history|..], other) ==
            Of(r.movements[|history|..], other) + if other == key then t.movements[|r.movements|..] else []
  {
    var since, own := r.movements[|history|..], t.movements[|r.movements|..];
    assert t.movements[|history|..] == since + own;
    OfOwn(own, key);
    OfConcat(since, own, other);
  }

  lemma RepairSettles(key: PlantKey, opening: int, history: seq<Movement>, before: seq<Movement>, after: seq<Movement>,
                      c: R.RepairChoice)
    requires c.Valid() && history <= before <= after && R.RepairMovements(after[|before|..], key, c)
    requires R.NeverShort(opening, before, key) && Of(before[|history|..], key) == []
    ensures Net(after, key) == Net(before, key) + Net(after[|before|..], key)
    ensures R.NeverShort(opening, after, key) <==>
              forall day | R.Away(c, day) :: opening + BalanceAt(history, key, day) >= 1
  {
    hide R.RepairMovements, R.Away, R.RepairChoice.Valid, R.NeverShort, BalanceAt, Net, Of;
    assert after == before + after[|before|..];
    NetConcat(before, after[|before|..], key);
    SameSince(history, before, key);
    R.BackdatedRemoval(opening, before, after[|before|..], key, c);
  }

  /** The documents of a case added for a plant that had none since `h`. */
  lemma CaseIsSince(h: Rows, r: Rows, t: Rows, key: PlantKey, lead: nat, c: R.RepairChoice)
    requires WellFormed(r) && NothingSince(h, r, key) && A.AddsFor(r, t, key) && R.CaseAdded(r, t, key, lead, c)
    ensures CaseSince(h, t, key, lead, Case(c, R.Places(|r.reservations|, |r.requisitions|, |r.orders|)))
  {
    SameLengths(r);
    hide WellFormed, R.AreDates, R.CasePosted;
    AddedSince(h.movements, r, t, key, key);
    A.AddingExtends(h, r, t, key);
    assert [] + t.movements[|r.movements|..] == t.movements[|r.movements|..];
  }

  method RepairOne(d: Dataset, e: MaterialPlant, ghost h: Rows) returns (ghost c: Case)
    requires e.Key() in d.plants && WellFormed(d.Snapshot()) && e.isRepairable && e.onHand >= 1
    requires BeforeRepair(e, h, d.Snapshot())
    modifies d, e`onHand, e`qualityStock
    ensures WellFormed(d.Snapshot()) && A.AddsFor(old(d.Snapshot()), d.Snapshot(), e.Key())
    ensures AfterRepair(e, h, d.Snapshot(), Some(c))
  {
    hide WellFormed, R.Repair, R.RepairMovements, R.RepairChoice.Valid, R.Away, A.AddsFor, R.CaseAdded, CaseSince;
    ghost var stand := StandOf(d, e);
    var choice := BuildRepairCase(d, e);
    R.RepairKeeps(e.Key(), e.plan.lead, stand, choice);
    O.RepairAdds(e.Key(), e.plan.lead, stand, choice);
    RepairSettles(e.Key(), e.opening, h.movements, stand.rows.movements, d.movements, choice);
    CaseIsSince(h, stand.rows, d.Snapshot(), e.Key(), e.plan.lead, choice);
    c := Case(choice, R.Places(|stand.rows.reservations|, |stand.rows.requisitions|, |stand.rows.orders|));
  }

  /** The plant awaits its turn, or has had it with this outcome. */
  ghost predicate Turn(e: MaterialPlant, h: Rows, r: Rows, turn: Option<Option<Case>>)
    reads e
  {
    && (e.isOar ==> OnDemandSettled(e, r))
    && match turn
       case None => BeforeRepair(e, h, r)
       case Some(c) =>
         && (c.Some? <==> e.isRepairable && e.opening + Net(h.movements, e.Key()) >= 1)
         && AfterRepair(e, h, r, c)
  }

  lemma NothingStill(h: Rows, r: Rows, t: Rows, key: PlantKey, other: PlantKey)
    requires A.AddsFor(r, t, key) && other != key && NothingSince(h, r, other)
    ensures NothingSince(h, t, other)
  {
    AddedSince(h.movements, r, t, key, other);
    A.AddingExtends(h, r, t, key);
  }

  lemma CaseStill(h: Rows, r: Rows, t: Rows, key: PlantKey, other: PlantKey, lead: nat, c: Case)
    requires A.AddsFor(r, t, key) && other != key && CaseSince(h, r, other, lead, c)
    ensures CaseSince(h, t, other, lead, c)
  {
    hide R.AreDates, R.CasePosted;
    AddedSince(h.movements, r, t, key, other);
    A.AddingExtends(h, r, t, key);
    assert Of(r.movements[|h.movements|..], other) + [] == Of(r.movements[|h.movements|..], other);
    var cameBack := c.choice.outcome in {R.Returned, R.BackInStock};
    forall d | R.CaseWritten(r, c.places, other, d, cameBack) ensures R.CaseWritten(t, c.places, other, d, cameBack) {
      A.ReceiptTotalKept(r.receipts, t.receipts, PO_START + |r.orders|, PO_START + c.places.item);
    }
  }

  lemma TurnStays(e: MaterialPlant, h: Rows, r: Rows, t: Rows, key: PlantKey, turn: Option<Option<Case>>)
    requires WellFormed(r) && A.AddsFor(r, t, key) && e.Key() != key && Turn(e, h, r, turn)
    ensures Turn(e, h, t, turn)
  {
    hide WellFormed, A.AddsFor, Balanced, Steady, OnDemandSettled, SameFor, NothingSince, CaseSince, R.NeverShort;
    hide R.Away, R.RepairChoice.Valid, Untouched;
    OthersStay(r, t, key, e.Key());
    SameStays(e, r, t);
    match turn
    case None => NothingStill(h, r, t, key, e.Key());
    case Some(None) => NothingStill(h, r, t, key, e.Key());
    case Some(Some(c)) => CaseStill(h, r, t, key, e.Key(), e.plan.lead, c);
  }

  lemma RestTurns(entries: seq<MaterialPlant>, i: nat, h: Rows, r: Rows, t: Rows)
    requires i < |entries| && DistinctKeys(entries) && WellFormed(r) && A.AddsFor(r, t, entries[i].Key())
    ensures forall k, turn | 0 <= k < |entries| && k != i && Turn(entries[k], h, r, turn) :: Turn(entries[k], h, t, turn)
  {
    hide WellFormed, A.AddsFor, Turn;
    forall k, turn | 0 <= k < |entries| && k != i && Turn(entries[k], h, r, turn) ensures Turn(entries[k], h, t, turn) {
      TurnStays(entries[k], h, r, t, entries[i].Key(), turn);
    }
  }

  lemma UnitsSince(e: MaterialPlant, h: Rows, r: Rows)
    requires BeforeRepair(e, h, r)
    ensures e.onHand == e.opening + Net(h.movements, e.Key())
  {
    SameSince(h.movements, r.movements, e.Key());
  }

  /** The turn of one plant: a case exactly if it is repairable and has a unit on hand. */
  method RepairIfPossible(d: Dataset, e: MaterialPlant, ghost h: Rows) returns (ghost c: Option<Case>)
    requires e.Valid() && e.Key() in d.plants && WellFormed(d.Snapshot()) && Turn(e, h, d.Snapshot(), None)
    modifies d, e`onHand, e`qualityStock
    ensures WellFormed(d.Snapshot()) && A.AddsFor(old(d.Snapshot()), d.Snapshot(), e.Key())
    ensures Turn(e, h, d.Snapshot(), Some(c))
  {
    hide WellFormed, A.AddsFor, OnDemandSettled, CaseSince, R.Away, R.RepairChoice.Valid, NothingSince;
    UnitsSince(e, h, d.Snapshot());
    if !e.isRepairable || e.onHand < 1 {
      A.AddsNothing(d.Snapshot(), e.Key());
      return None;
    }
    ghost var repair := RepairOne(d, e, h);
    c := Some(repair);
  }

  /** A case for exactly the repairable plants with a unit on hand. */
  method BuildRepairs(d: Dataset, entries: seq<MaterialPlant>,
                      ghost stories: seq<Story>) returns (ghost cases: seq<Option<Case>>)
    requires DistinctKeys(entries) && WellFormed(d.Snapshot()) && |stories| == |entries|
    requires forall e | e in entries :: e.Valid() && e.Key() in d.plants
    requires forall i | 0 <= i < |entries| :: ChainsBuilt(entries[i], d.Snapshot(), true, stories[i])
    modifies d, entries
    ensures WellFormed(d.Snapshot()) && |cases| == |entries| && A.Extends(old(d.Snapshot()), d.Snapshot())
    ensures forall i | 0 <= i < |entries| :: Turn(entries[i], old(d.Snapshot()), d.Snapshot(), Some(cases[i]))
  {
    hide WellFormed, Turn, ChainsBuilt, A.AddsFor, A.Extends;
    ghost var h := d.Snapshot();
    FirstTurns(entries, h, stories);
    cases := [];
    for i := 0 to |entries|
      invariant WellFormed(d.Snapshot()) && |cases| == i && A.Extends(h, d.Snapshot())
      invariant forall k | 0 <= k < i :: Turn(entries[k], h, d.Snapshot(), Some(cases[k]))
      invariant forall k | i <= k < |entries| :: Turn(entries[k], h, d.Snapshot(), None)
    {
      ghost var before := d.Snapshot();
      ghost var c := RepairIfPossible(d, entries[i], h);
      RestTurns(entries, i, h, before, d.Snapshot());
      A.AddingExtends(h, before, d.Snapshot(), entries[i].Key());
      cases := cases + [c];
    }
  }

  lemma FirstTurns(entries: seq<MaterialPlant>, r: Rows, stories: seq<Story>)
    requires |stories| == |entries| && forall i | 0 <= i < |entries| :: ChainsBuilt(entries[i], r, true, stories[i])
    ensures A.Extends(r, r) && forall k | 0 <= k < |entries| :: Turn(entries[k], r, r, None)
  {
    hide OnDemandSettled, Steady, Told;
    assert r.movements[|r.movements|..] == [];
    forall k | 0 <= k < |entries| ensures Turn(entries[k], r, r, None) {
      assert ChainsBuilt(entries[k], r, true, stories[k]);
    }
  }

  // --- the whole run ----------------------------------------------------------------------------------

  method CollectHeld(entries: seq<MaterialPlant>) returns (held: seq<Check.Held>)
    ensures |held| == |entries|
    ensures forall i | 0 <= i < |entries| ::
              held[i] == Check.Held(entries[i].Key(), entries[i].opening, entries[i].onHand, entries[i].qualityStock)
  {
    held := [];
    for i := 0 to |entries|
      invariant |held| == i
      invariant forall k | 0 <= k < i ::
                  held[k] == Check.Held(entries[k].Key(), entries[k].opening, entries[k].onHand, entries[k].qualityStock)
    {
      held := held + [Check.Held(entries[i].Key(), entries[i].opening, entries[i].onHand, entries[i].qualityStock)];
    }
  }

  /** The stock row of a plant, in thousandths: unrestricted stock is what is on hand, quality stock what is in
      inspection, and both together are the opening stock plus the movements. */
  ghost predicate StockStated(e: MaterialPlant, row: StockRow, movements: seq<Movement>)
    reads e
  {
    && row == StockRow(e.Key(), 1000 * e.onHand, 1000 * e.qualityStock)
    && row.labst + row.insme == 1000 * (e.opening + Net(movements, e.Key()))
  }

  lemma StockIsStated(e: MaterialPlant, row: StockRow, movements: seq<Movement>)
    requires Balanced(e, movements) && row == StockRow(e.Key(), Labst(e.onHand), 1000 * e.qualityStock)
    ensures StockStated(e, row, movements)
  {
  }

  /** The closing tables over balanced positions, and the checks over them. */
  method CloseAndCheck(d: Dataset, entries: seq<MaterialPlant>, codes: set<nat>) returns (problems: nat, stock: seq<StockRow>)
    requires DistinctKeys(entries) && WellFormed(d.Snapshot()) && d.plants == KeysOf(entries)
    requires forall p | p in d.plants :: p.werks in codes
    requires forall e | e in entries :: Balanced(e, d.movements)
    modifies d`schedules, d`orderItems
    ensures WellFormed(d.Snapshot()) && DeliveriesStated(d.Snapshot()) && problems == 0
    ensures |stock| == |entries| && forall i | 0 <= i < |entries| :: StockStated(entries[i], stock[i], d.movements)
    ensures A.Extends(old(d.Snapshot()), d.Snapshot()) && |d.orderItems| == |old(d.orderItems)| && |d.schedules| == |old(d.schedules)|
  {
    ghost var before := d.Snapshot();
    FinalisePoItems(d);
    FinalisedKeeps(before);
    FinalisedExtends(before);
    hide WellFormed, Finalised, DeliveriesStated, Check.Consistent, BatchesFit, BatchesNumbered, Labst, A.Extends, StockStated;
    hide Balanced, KeysOf, DistinctKeys, Consistency.Finished;
    stock := WriteStock(entries);
    var batches := BuildBatchStock(entries);
    var held := CollectHeld(entries);
    var t := Check.Output(d.Snapshot(), stock, batches, held, codes);
    TablesFinished(entries, t);
    Consistency.FinishedIsConsistent(t);
    problems := Check.CheckAll(t);
  }

  lemma TablesFinished(entries: seq<MaterialPlant>, t: Check.Output)
    requires DistinctKeys(entries) && WellFormed(t.rows) && DeliveriesStated(t.rows) && t.rows.plants == KeysOf(entries)
    requires forall p | p in t.rows.plants :: p.werks in t.codes
    requires forall e | e in entries :: Balanced(e, t.rows.movements)
    requires |t.stock| == |t.held| == |entries| && BatchesNumbered(t.batches, KeysOf(entries))
    requires forall i | 0 <= i < |entries| ::
               && t.stock[i] == StockRow(entries[i].Key(), Labst(entries[i].onHand), 1000 * entries[i].qualityStock)
               && t.held[i] == Check.Held(entries[i].Key(), entries[i].opening, entries[i].onHand, entries[i].qualityStock)
               && BatchesFit(t.batches, entries[i].Key(), Labst(entries[i].onHand))
    ensures Consistency.Finished(t)
    ensures forall i | 0 <= i < |entries| :: StockStated(entries[i], t.stock[i], t.rows.movements)
  {
    hide WellFormed, DeliveriesStated, BatchesFit, BatchesNumbered, Labst, StockStated;
    forall i | 0 <= i < |entries|
      ensures Consistency.HeldFits(t.held[i], t.stock[i], t.batches, t.rows) && StockStated(entries[i], t.stock[i], t.rows.movements)
    {
      assert entries[i] in entries && entries[i].Key() in KeysOf(entries);
      StockIsStated(entries[i], t.stock[i], t.rows.movements);
    }
  }

  lemma FinalisedExtends(r: Rows)
    requires |r.orderItems| == |r.schedules| == |r.poItems|
    ensures A.Extends(r, Finalised(r))
    ensures |Finalised(r).orderItems| == |r.orderItems| && |Finalised(r).schedules| == |r.schedules|
  {
  }

  /** What a run says of one plant, `h` being the tables before the repairs. Its rows tell its whole window, or
      its chains in OAR scope. Its stock is balanced. In OAR scope every reservation is issued at most what its
      order received, and that at most what was reserved, and the plant holds the difference of the first two.
      Up to the repairs its dated stock never fell short; afterwards that is so unless it has a repair case,
      which is raised exactly if it is repairable and had a unit on hand. Only a case adds anything more, its
      documents, removal and return; and with one it falls short exactly where the unit was away, on paper,
      on a day none had been there. */
  ghost predicate Accounted(e: MaterialPlant, h: Rows, r: Rows, story: Story, c: Option<Case>)
    reads e
  {
    && Told(e, h, story) && Balanced(e, r.movements)
    && (e.isOar ==> OnDemandSettled(e, r))
    && R.NeverShort(e.opening, h.movements, e.Key())
    && (c.Some? <==> e.isRepairable && e.opening + Net(h.movements, e.Key()) >= 1)
    && AfterRepair(e, h, r, c)
    && (!e.isRepairable ==> R.NeverShort(e.opening, r.movements, e.Key()))
  }

  /** From any material-plants with distinct keys, whatever is drawn: the checks report nothing, every
      document fits every other, what is stated as delivered is what was received, every plant's rows tell what
      was drawn for it, and its closing stock is accounted for. */
  method Generate(entries: seq<MaterialPlant>, codes: set<nat>)
    returns (d: Dataset, problems: nat, stock: seq<StockRow>, ghost h: Rows, ghost stories: seq<Story>, ghost cases: seq<Option<Case>>)
    requires DistinctKeys(entries)
    requires forall e | e in entries ::
               e.Valid() && e.onHand == e.opening && e.qualityStock == 0 && e.openPoQty == 0 && e.Key().werks in codes
    modifies entries
    ensures problems == 0 && fresh(d) && WellFormed(d.Snapshot()) && DeliveriesStated(d.Snapshot())
    ensures A.Extends(h, d.Snapshot()) && |stories| == |cases| == |stock| == |entries|
    ensures forall i | 0 <= i < |entries| :: Accounted(entries[i], h, d.Snapshot(), stories[i], cases[i])
    ensures forall i | 0 <= i < |entries| :: StockStated(entries[i], stock[i], d.movements)
  {
    d := new Dataset(KeysOf(entries));
    EmptyIsWellFormed(KeysOf(entries));
    hide WellFormed, DeliveriesStated, Untouched, Accounted, Balanced, A.Extends, StockStated, KeysOf, DistinctKeys;
    hide MaterialPlant.Valid;
    NothingHappened(entries, d);
    CodesKnown(entries, codes);
    h, stories, cases := WriteDocuments(d, entries);
    EntriesBalanced(entries, h, d.Snapshot(), stories, cases);
    ghost var before := d.Snapshot();
    problems, stock := CloseAndCheck(d, entries, codes);
    ExtendsOn(h, before, d.Snapshot());
    StillAccounted(entries, h, before, d.Snapshot(), stories, cases);
  }

  /** `build_history`, `build_oar_chains` and `build_repairs`. */
  method WriteDocuments(d: Dataset, entries: seq<MaterialPlant>)
    returns (ghost h: Rows, ghost stories: seq<Story>, ghost cases: seq<Option<Case>>)
    requires DistinctKeys(entries) && WellFormed(d.Snapshot())
    requires forall e | e in entries :: e.Valid() && e.Key() in d.plants && Untouched(e, d.Snapshot()) && e.openPoQty == 0
    modifies d, entries
    ensures WellFormed(d.Snapshot()) && A.Extends(h, d.Snapshot()) && |stories| == |cases| == |entries|
    ensures forall i | 0 <= i < |entries| :: Accounted(entries[i], h, d.Snapshot(), stories[i], cases[i])
  {
    hide WellFormed, Untouched, Steady, HistoryBuilt, ChainsBuilt, Turn, Accounted, R.NeverShort, A.Extends, Told;
    ghost var walked := BuildHistory(d, entries);
    stories := BuildOarChains(d, entries, walked);
    h := d.Snapshot();
    ToldByNow(entries, h, stories);
    cases := BuildRepairs(d, entries, stories);
    TurnsAccount(entries, h, d.Snapshot(), stories, cases);
  }

  lemma CodesKnown(entries: seq<MaterialPlant>, codes: set<nat>)
    requires forall e | e in entries :: e.Key().werks in codes
    ensures forall p | p in KeysOf(entries) :: p.werks in codes
  {
  }

  lemma NothingHappened(entries: seq<MaterialPlant>, d: Dataset)
    requires d.plants == KeysOf(entries) && d.Snapshot() == NoDocuments(d.plants)
    requires forall e | e in entries :: e.onHand == e.opening && e.qualityStock == 0
    ensures forall e | e in entries :: e.Key() in d.plants && Untouched(e, d.Snapshot())
  {
    forall e | e in entries ensures e.Key() in d.plants {
      var i :| 0 <= i < |entries| && entries[i] == e;
    }
  }

  lemma ToldByNow(entries: seq<MaterialPlant>, r: Rows, stories: seq<Story>)
    requires |stories| == |entries| && forall i | 0 <= i < |entries| :: ChainsBuilt(entries[i], r, true, stories[i])
    ensures forall i | 0 <= i < |entries| :: Told(entries[i], r, stories[i]) && R.NeverShort(entries[i].opening, r.movements, entries[i].Key())
  {
    hide OnDemandSettled, R.NeverShort, Balanced, Told, Untouched;
  }

  lemma TurnsAccount(entries: seq<MaterialPlant>, h: Rows, r: Rows, stories: seq<Story>, cases: seq<Option<Case>>)
    requires |stories| == |cases| == |entries| && forall i | 0 <= i < |entries| :: Turn(entries[i], h, r, Some(cases[i]))
    requires forall i | 0 <= i < |entries| :: Told(entries[i], h, stories[i]) && R.NeverShort(entries[i].opening, h.movements, entries[i].Key())
    ensures forall i | 0 <= i < |entries| :: Accounted(entries[i], h, r, stories[i], cases[i])
  {
    hide Turn, Accounted, R.NeverShort, Told;
    forall i | 0 <= i < |entries| ensures Accounted(entries[i], h, r, stories[i], cases[i]) {
      TurnAccounts(entries[i], h, r, stories[i], cases[i]);
    }
  }

  lemma TurnAccounts(e: MaterialPlant, h: Rows, r: Rows, story: Story, c: Option<Case>)
    requires Turn(e, h, r, Some(c)) && Told(e, h, story) && R.NeverShort(e.opening, h.movements, e.Key())
    ensures Accounted(e, h, r, story, c)
  {
    hide OnDemandSettled, Balanced, R.NeverShort, CaseSince, NothingSince, R.Away, R.RepairChoice.Valid, Told;
  }

  lemma EntriesBalanced(entries: seq<MaterialPlant>, h: Rows, r: Rows, stories: seq<Story>, cases: seq<Option<Case>>)
    requires |stories| == |cases| == |entries|
    requires forall i | 0 <= i < |entries| :: Accounted(entries[i], h, r, stories[i], cases[i])
    ensures forall e | e in entries :: Balanced(e, r.movements)
  {
    hide Balanced, OnDemandSettled, AfterRepair, R.NeverShort, Told;
    forall e | e in entries ensures Balanced(e, r.movements) {
      var i :| 0 <= i < |entries| && entries[i] == e;
      assert Accounted(entries[i], h, r, stories[i], cases[i]);
    }
  }

  lemma ExtendsOn(h: Rows, r: Rows, t: Rows)
    requires A.Extends(h, r) && A.Extends(r, t)
    ensures A.Extends(h, t)
  {
  }

  /** Stating what was delivered changes nothing of a plant's case. */
  lemma CaseStated(h: Rows, r: Rows, t: Rows, key: PlantKey, lead: nat, c: Case)
    requires A.Extends(h, t) && OnlyStated(r, t) && CaseSince(h, r, key, lead, c)
    ensures CaseSince(h, t, key, lead, c)
  {
    hide R.AreDates, R.CasePosted;
    var cameBack := c.choice.outcome in {R.Returned, R.BackInStock};
    forall d | R.CaseWritten(r, c.places, key, d, cameBack) ensures R.CaseWritten(t, c.places, key, d, cameBack) {
    }
  }

  lemma NothingStated(h: Rows, r: Rows, t: Rows, key: PlantKey)
    requires A.Extends(h, t) && OnlyStated(r, t) && NothingSince(h, r, key)
    ensures NothingSince(h, t, key)
  {
  }

  /** The tables differ only in what is stated as delivered. */
  ghost predicate OnlyStated(r: Rows, t: Rows) {
    && A.Extends(r, t) && |t.orderItems| == |r.orderItems| && |t.schedules| == |r.schedules|
    && t.orders == r.orders && t.reservations == r.reservations && t.requisitions == r.requisitions
    && t.receipts == r.receipts && t.movements == r.movements
  }

  lemma AccountStated(e: MaterialPlant, h: Rows, r: Rows, t: Rows, story: Story, c: Option<Case>)
    requires A.Extends(h, t) && OnlyStated(r, t) && Accounted(e, h, r, story, c)
    ensures Accounted(e, h, t, story, c)
  {
    hide O.Settled, Balanced, R.NeverShort, Told, CaseSince, NothingSince, A.Extends, R.Away, R.RepairChoice.Valid;
    if e.isOar {
      O.SettledIgnores(r, t, e.Key(), e.onHand);
    }
    match c
    case None => NothingStated(h, r, t, e.Key());
    case Some(repair) => CaseStated(h, r, t, e.Key(), e.plan.lead, repair);
  }

  lemma StillAccounted(entries: seq<MaterialPlant>, h: Rows, r: Rows, t: Rows, stories: seq<Story>, cases: seq<Option<Case>>)
    requires |stories| == |cases| == |entries| && A.Extends(h, t) && OnlyStated(r, t)
    requires forall i | 0 <= i < |entries| :: Accounted(entries[i], h, r, stories[i], cases[i])
    ensures forall i | 0 <= i < |entries| :: Accounted(entries[i], h, t, stories[i], cases[i])
  {
    hide Accounted, A.Extends, OnlyStated;
    forall i | 0 <= i < |entries| ensures Accounted(entries[i], h, t, stories[i], cases[i]) {
      AccountStated(entries[i], h, r, t, stories[i], cases[i]);
    }
  }
}
