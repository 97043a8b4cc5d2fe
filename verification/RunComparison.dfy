/** Comparing two runs over keyed populations (scripts/i7_window_audit.py): the counts before, the
    counts after and the movements between them balance. */
module RunComparison {
  import opened Wrappers
  import opened Sequences

  type Key = nat
  type Status = nat

  /** Python's `Counter` of the items counted so far. */
  function Counted<T(==)>(items: seq<T>, x: T): nat {
    multiset(items)[x]
  }

  // --- summarise_eligibility --------------------------------------------------------

  datatype Feature = Feature(isOar: bool, history: Status, window: Option<Status>, demandClass: nat)
  {
    /** The gate after: the window's verdict where there is one. */
    function Gate(): Status {
      if window.Some? then window.value else history
    }
  }

  datatype Eligibility = Eligibility(
    compared: seq<Key>, stock: seq<Key>, gateBefore: seq<Status>, gateAfter: seq<Status>,
    transitions: seq<(Status, Status)>, classChanges: seq<(nat, nat)>)

  function Leaving(transitions: seq<(Status, Status)>, s: Status): nat {
    if transitions == [] then 0
    else Leaving(transitions[..|transitions| - 1], s) + if transitions[|transitions| - 1].0 == s then 1 else 0
  }

  function Entering(transitions: seq<(Status, Status)>, s: Status): nat {
    if transitions == [] then 0
    else Entering(transitions[..|transitions| - 1], s) + if transitions[|transitions| - 1].1 == s then 1 else 0
  }

  const SUFFICIENT: Status := 0

  ghost predicate GatesListed(e: Eligibility, before: map<Key, Feature>, after: map<Key, Feature>) {
    && |e.gateBefore| == |e.gateAfter| == |e.stock|
    && forall i | 0 <= i < |e.stock| :: e.stock[i] in before && e.stock[i] in after
         && e.gateBefore[i] == before[e.stock[i]].history
         && e.gateAfter[i] == match after[e.stock[i]].window case Some(verdict) => verdict case None => after[e.stock[i]].history
  }

  /** Those of a list that had the status `was` and have the gate `now`. */
  ghost function WhoMoved(list: seq<Key>, before: map<Key, Feature>, after: map<Key, Feature>, was: Status,
                          now: Status): set<Key> {
    set k | k in list && k in before && k in after && before[k].history == was &&
            (after[k].window == Some(now) || (after[k].window == None && after[k].history == now))
  }

  /** Those that stayed eligible and went from one demand class to another. */
  ghost function WhoChangedClass(list: seq<Key>, before: map<Key, Feature>, after: map<Key, Feature>, was: nat,
                                 now: nat): set<Key> {
    set k | k in WhoMoved(list, before, after, SUFFICIENT, SUFFICIENT) && before[k].demandClass == was && after[k].demandClass == now
  }

  /** Each transition and each change of class is counted as often as there are material-plants that made it. */
  ghost predicate MovesCounted(list: seq<Key>, before: map<Key, Feature>, after: map<Key, Feature>,
                               transitions: seq<(Status, Status)>, classChanges: seq<(nat, nat)>)
  {
    && (forall s: Status, t: Status ::
          Counted(transitions, (s, t)) == if s == t then 0 else |WhoMoved(list, before, after, s, t)|)
    && forall a: nat, b: nat ::
          Counted(classChanges, (a, b)) == if a == b then 0 else |WhoChangedClass(list, before, after, a, b)|
  }

  lemma OneMoreMover(list: seq<Key>, k: Key, before: map<Key, Feature>, after: map<Key, Feature>,
                     transitions: seq<(Status, Status)>, classChanges: seq<(nat, nat)>)
    requires MovesCounted(list, before, after, transitions, classChanges)
    requires k !in list && k in before && k in after
    ensures var was, now, a, b := before[k].history, after[k].Gate(), before[k].demandClass, after[k].demandClass;
            MovesCounted(list + [k], before, after,
                         if was != now then transitions + [(was, now)] else transitions,
                         if was == now == SUFFICIENT && a != b then classChanges + [(a, b)] else classChanges)
  {
    hide Counted, WhoMoved, WhoChangedClass, Feature.Gate;
    var was, now, a, b := before[k].history, after[k].Gate(), before[k].demandClass, after[k].demandClass;
    forall s: Status, t: Status
      ensures |WhoMoved(list + [k], before, after, s, t)| ==
              |WhoMoved(list, before, after, s, t)| + if s == was && t == now then 1 else 0
    {
      MoversGrow(list, k, before, after, s, t);
    }
    forall x: nat, y: nat
      ensures |WhoChangedClass(list + [k], before, after, x, y)| ==
              |WhoChangedClass(list, before, after, x, y)| + if was == now == SUFFICIENT && x == a && y == b then 1 else 0
    {
      ChangersGrow(list, k, before, after, x, y);
    }
    CountedMore(transitions, (was, now));
    CountedMore(classChanges, (a, b));
  }

  lemma MoversGrow(list: seq<Key>, k: Key, before: map<Key, Feature>, after: map<Key, Feature>, s: Status, t: Status)
    requires k !in list && k in before && k in after
    ensures |WhoMoved(list + [k], before, after, s, t)| ==
            |WhoMoved(list, before, after, s, t)| + if s == before[k].history && t == after[k].Gate() then 1 else 0
  {
    assert WhoMoved(list + [k], before, after, s, t) ==
           WhoMoved(list, before, after, s, t) + if s == before[k].history && t == after[k].Gate() then {k} else {};
  }

  lemma ChangersGrow(list: seq<Key>, k: Key, before: map<Key, Feature>, after: map<Key, Feature>, x: nat, y: nat)
    requires k !in list && k in before && k in after
    ensures |WhoChangedClass(list + [k], before, after, x, y)| ==
            |WhoChangedClass(list, before, after, x, y)| +
            if before[k].history == after[k].Gate() == SUFFICIENT && x == before[k].demandClass && y == after[k].demandClass then 1 else 0
  {
    assert WhoChangedClass(list + [k], before, after, x, y) ==
           WhoChangedClass(list, before, after, x, y) +
           if before[k].history == after[k].Gate() == SUFFICIENT && x == before[k].demandClass && y == after[k].demandClass then {k} else {};
  }

  lemma CountedMore<T>(items: seq<T>, x: T)
    ensures forall y :: Counted(items + [x], y) == Counted(items, y) + if y == x then 1 else 0
  {
  }

  lemma NoMoves(before: map<Key, Feature>, after: map<Key, Feature>)
    ensures MovesCounted([], before, after, [], [])
  {
    forall s: Status, t: Status ensures WhoMoved([], before, after, s, t) == {} {
    }
    forall a: nat, b: nat ensures WhoChangedClass([], before, after, a, b) == {} {
    }
  }

  /** For every status, what the gate counts after is what it counted before, less what left, plus what came. */
  ghost predicate GatesBalance(before: seq<Status>, after: seq<Status>, transitions: seq<(Status, Status)>) {
    && (forall t | t in transitions :: t.0 != t.1)
    && forall s :: Counted(after, s) + Leaving(transitions, s) == Counted(before, s) + Entering(transitions, s)
  }

  lemma SameGate(before: seq<Status>, after: seq<Status>, transitions: seq<(Status, Status)>, gate: Status)
    requires GatesBalance(before, after, transitions)
    ensures GatesBalance(before + [gate], after + [gate], transitions)
  {
  }

  lemma OtherGate(before: seq<Status>, after: seq<Status>, transitions: seq<(Status, Status)>, was: Status, now: Status)
    requires GatesBalance(before, after, transitions) && was != now
    ensures GatesBalance(before + [was], after + [now], transitions + [(was, now)])
  {
    assert (transitions + [(was, now)])[..|transitions|] == transitions;
  }

  /** `order` is the insertion order of `before`. */
  method SummariseEligibility(before: map<Key, Feature>, after: map<Key, Feature>, order: seq<Key>) returns (e: Eligibility)
    requires NoRepeats(order) && forall k :: k in order <==> k in before
    ensures forall k :: k in e.compared <==> k in before && k in after
    ensures forall k :: k in e.stock <==> k in before && k in after && !before[k].isOar
    ensures NoRepeats(e.compared) && NoRepeats(e.stock)
    ensures GatesListed(e, before, after) && GatesBalance(e.gateBefore, e.gateAfter, e.transitions)
    ensures MovesCounted(e.stock, before, after, e.transitions, e.classChanges)
  {
    hide GatesBalance, NoRepeats, MovesCounted;
    e := Eligibility([], [], [], [], [], []);
    EmptyBalances();
    NoMoves(before, after);
    for i := 0 to |order|
      invariant NoRepeats(e.compared) && NoRepeats(e.stock)
      invariant forall k :: k in e.compared <==> k in order[..i] && k in after
      invariant forall k :: k in e.stock <==> k in order[..i] && k in after && !before[k].isOar
      invariant GatesListed(e, before, after) && GatesBalance(e.gateBefore, e.gateAfter, e.transitions)
      invariant MovesCounted(e.stock, before, after, e.transitions, e.classChanges)
    {
      var k := order[i];
      NewAt(order, i);
      if k in after {
        NoRepeatsAppend(e.compared, k);
        e := e.(compared := e.compared + [k]);
        if !before[k].isOar {
          NoRepeatsAppend(e.stock, k);
          var was, now := before[k].history, after[k].Gate();
          OneMoreMover(e.stock, k, before, after, e.transitions, e.classChanges);
          if was != now {
            OtherGate(e.gateBefore, e.gateAfter, e.transitions, was, now);
          } else {
            SameGate(e.gateBefore, e.gateAfter, e.transitions, was);
          }
          e := e.(stock := e.stock + [k], gateBefore := e.gateBefore + [was], gateAfter := e.gateAfter + [now]);
          if was != now {
            e := e.(transitions := e.transitions + [(was, now)]);
          } else if was == SUFFICIENT && before[k].demandClass != after[k].demandClass {
            e := e.(classChanges := e.classChanges + [(before[k].demandClass, after[k].demandClass)]);
          }
        }
      }
    }
    assert order[..|order|] == order;
  }

  lemma EmptyBalances()
    ensures GatesBalance([], [], []) && NoRepeats<Key>([])
  {
  }

  // --- diff_inventory ---------------------------------------------------------------

  /** One inventory parameter of a material-plant: its status, its value and the unit price. */
  datatype Parameter = Parameter(ok: bool, value: Option<real>, price: Option<real>)

  predicate Evaluable(p: Parameter) {
    p.ok && p.value.Some?
  }

  predicate EvaluableIn(rows: map<Key, Parameter>, k: Key) {
    k in rows && Evaluable(rows[k])
  }

  function Price(p: Parameter): real {
    if p.price.Some? then p.price.value else 0.0
  }

  datatype Diff = Diff(
    evaluableBefore: nat, evaluableAfter: nat, newly: nat, lost: nat, compared: nat,
    increased: nat, decreased: nat, same: nat, valueBefore: real, valueAfter: real)

  function Worth(price: real, quantity: real): real {
    price * quantity
  }

  /** What the listed quantities of a run are worth at the prices before. */
  function TotalWorth(before: map<Key, Parameter>, run: map<Key, Parameter>, list: seq<Key>): real
    requires forall i | 0 <= i < |list| :: EvaluableIn(before, list[i]) && EvaluableIn(run, list[i])
  {
    if list == [] then 0.0
    else
      var k := list[|list| - 1];
      assert EvaluableIn(before, list[|list| - 1]) && EvaluableIn(run, list[|list| - 1]);
      TotalWorth(before, run, list[..|list| - 1]) + Worth(Price(before[k]), run[k].value.value)
  }

  lemma OneMoreWorth(before: map<Key, Parameter>, run: map<Key, Parameter>, list: seq<Key>, k: Key)
    requires EvaluableIn(before, k) && EvaluableIn(run, k)
    requires forall i | 0 <= i < |list| :: EvaluableIn(before, list[i]) && EvaluableIn(run, list[i])
    ensures TotalWorth(before, run, list + [k]) == TotalWorth(before, run, list) + Worth(Price(before[k]), run[k].value.value)
  {
    assert (list + [k])[..|list|] == list;
  }

  /** If all have the same price and moved by the same quantity, the value moved by that price times that
      quantity for each. */
  lemma {:induction false} WorthOfMove(before: map<Key, Parameter>, after: map<Key, Parameter>, list: seq<Key>,
                                       price: real, move: real)
    requires forall i | 0 <= i < |list| ::
               && EvaluableIn(before, list[i]) && EvaluableIn(after, list[i]) && Price(before[list[i]]) == price
               && after[list[i]].value.value - before[list[i]].value.value == move
    ensures TotalWorth(before, after, list) - TotalWorth(before, before, list) == |list| as real * (price * move)
  {
    if list == [] {
    } else {
      var n := |list| - 1;
      WorthOfMove(before, after, list[..n], price, move);
      assert EvaluableIn(before, list[n]) && EvaluableIn(after, list[n]);
      var b, a := before[list[n]].value.value, after[list[n]].value.value;
      assert Worth(price, a) - Worth(price, b) == price * move;
      assert |list| as real * (price * move) == n as real * (price * move) + price * move;
    }
  }

  /** The value of a list does not depend on its order. */
  lemma {:induction false} WorthInAnyOrder(before: map<Key, Parameter>, run: map<Key, Parameter>, a: seq<Key>, b: seq<Key>)
    requires multiset(a) == multiset(b)
    requires forall k | k in a :: EvaluableIn(before, k) && EvaluableIn(run, k)
    requires forall k | k in b :: EvaluableIn(before, k) && EvaluableIn(run, k)
    ensures TotalWorth(before, run, a) == TotalWorth(before, run, b)
  {
    hide TotalWorth;
    SameElements(a, b);
    if a == [] {
      assert b == [];
    } else {
      var n := |a| - 1;
      assert a[n] in b;
      var j :| 0 <= j < |b| && b[j] == a[n];
      WithoutOne(a, n);
      WithoutOne(b, j);
      assert a[..n] + a[n + 1..] == a[..n];
      SameElements(a[..n], b[..j] + b[j + 1..]);
      WorthInAnyOrder(before, run, a[..n], b[..j] + b[j + 1..]);
      WorthWithout(before, run, a, n);
      WorthWithout(before, run, b, j);
    }
  }

  lemma {:induction false} WorthWithout(before: map<Key, Parameter>, run: map<Key, Parameter>, list: seq<Key>, j: nat)
    requires j < |list| && forall i | 0 <= i < |list| :: EvaluableIn(before, list[i]) && EvaluableIn(run, list[i])
    ensures TotalWorth(before, run, list) ==
            TotalWorth(before, run, list[..j] + list[j + 1..]) + Worth(Price(before[list[j]]), run[list[j]].value.value)
  {
    var n := |list| - 1;
    if j == n {
      assert list[..j] + list[j + 1..] == list[..n];
    } else {
      WorthWithout(before, run, list[..n], j);
      var rest := list[..j] + list[j + 1..];
      assert rest == (list[..n][..j] + list[..n][j + 1..]) + [list[n]];
      assert forall i | 0 <= i < |list[..n]| :: list[..n][i] == list[i];
      OneMoreWorth(before, run, list[..n][..j] + list[..n][j + 1..], list[n]);
    }
  }

  /** The material-plants evaluable in both runs whose quantity rose, fell, or stayed. */
  function Rose(before: map<Key, Parameter>, after: map<Key, Parameter>): set<Key> {
    set k | EvaluableIn(before, k) && k in before && EvaluableIn(after, k) && after[k].value.value > before[k].value.value
  }

  function Fell(before: map<Key, Parameter>, after: map<Key, Parameter>): set<Key> {
    set k | EvaluableIn(before, k) && k in before && EvaluableIn(after, k) && after[k].value.value < before[k].value.value
  }

  /** One pass over a mapping, in its own order. */
  method CountWhere(order: seq<Key>, counts: Key -> bool, ghost what: set<Key>) returns (n: nat)
    requires NoRepeats(order) && forall k :: k in what <==> k in order && counts(k)
    ensures n == |what|
  {
    n := 0;
    ghost var counted: set<Key> := {};
    for i := 0 to |order|
      invariant n == |counted| && forall k :: k in counted <==> k in order[..i] && counts(k)
    {
      NewAt(order, i);
      if counts(order[i]) {
        n := n + 1;
        counted := counted + {order[i]};
      }
    }
    assert order[..|order|] == order;
    assert counted == what;
  }

  ghost predicate IsOrderOf(order: seq<Key>, rows: map<Key, Parameter>) {
    NoRepeats(order) && forall k :: k in order <==> k in rows
  }

  /** `was` and `now` are the orders in which the two mappings are passed over. Each count is a pass of its
      own, and they balance. */
  method DiffParameter(before: map<Key, Parameter>, after: map<Key, Parameter>, was: seq<Key>, now: seq<Key>)
    returns (d: Diff, ghost both: seq<Key>)
    requires IsOrderOf(was, before) && IsOrderOf(now, after)
    ensures NoRepeats(both) && forall k :: k in both <==> EvaluableIn(before, k) && EvaluableIn(after, k)
    ensures forall i | 0 <= i < |both| :: EvaluableIn(before, both[i]) && EvaluableIn(after, both[i])
    ensures d.evaluableBefore == |EvaluableKeys(before)| && d.evaluableAfter == |EvaluableKeys(after)|
    ensures d.newly == |EvaluableKeys(after) - EvaluableKeys(before)|
    ensures d.lost == |EvaluableKeys(before) - EvaluableKeys(after)|
    ensures d.evaluableAfter == d.evaluableBefore + d.newly - d.lost
    ensures d.compared == d.evaluableBefore - d.lost
    ensures d.increased == |Rose(before, after)| && d.decreased == |Fell(before, after)|
    ensures d.increased + d.decreased + d.same == d.compared == |both|
    ensures d.valueBefore == TotalWorth(before, before, both) && d.valueAfter == TotalWorth(before, after, both)
  {
    var list, valueBefore, valueAfter, up, down, same := CompareBoth(before, after, was);
    both := list;
    var evaluableBefore := CountWhere(was, (k: Key) => EvaluableIn(before, k), EvaluableKeys(before));
    var evaluableAfter := CountWhere(now, (k: Key) => EvaluableIn(after, k), EvaluableKeys(after));
    var newly := CountWhere(now, (k: Key) => EvaluableIn(after, k) && !EvaluableIn(before, k), EvaluableKeys(after) - EvaluableKeys(before));
    var lost := CountWhere(was, (k: Key) => EvaluableIn(before, k) && !EvaluableIn(after, k), EvaluableKeys(before) - EvaluableKeys(after));
    d := Diff(evaluableBefore, evaluableAfter, newly, lost, |list|, up, down, same, valueBefore, valueAfter);
    CountsBalance(list, EvaluableKeys(before), EvaluableKeys(after));
  }

  lemma CountsBalance(list: seq<Key>, was: set<Key>, now: set<Key>)
    requires NoRepeats(list) && forall k :: k in list <==> k in was && k in now
    ensures |now| == |was| + |now - was| - |was - now| && |list| == |was| - |was - now|
  {
    SharedSize(list, was, now);
    Split(was, now);
    Split(now, was);
    assert was * now == now * was;
  }

  function EvaluableKeys(rows: map<Key, Parameter>): set<Key> {
    set k | k in rows && Evaluable(rows[k])
  }

  lemma SharedSize(list: seq<Key>, a: set<Key>, b: set<Key>)
    requires NoRepeats(list) && forall k :: k in list <==> k in a && k in b
    ensures |list| == |a * b|
  {
    ListSize(list);
    assert Elements(list) == a * b;
  }

  lemma Split(a: set<Key>, b: set<Key>)
    ensures |a| == |a * b| + |a - b|
  {
    assert a == a * b + (a - b);
  }

  /** The material-plants evaluable in both runs, and which way each moved. */
  method CompareBoth(before: map<Key, Parameter>, after: map<Key, Parameter>, order: seq<Key>)
    returns (list: seq<Key>, valueBefore: real, valueAfter: real, up: nat, down: nat, same: nat)
    requires NoRepeats(order) && forall k :: k in order <==> k in before
    ensures NoRepeats(list)
    ensures forall k :: k in list <==> EvaluableIn(before, k) && EvaluableIn(after, k)
    ensures forall i | 0 <= i < |list| :: EvaluableIn(before, list[i]) && EvaluableIn(after, list[i])
    ensures up == |Rose(before, after)| && down == |Fell(before, after)|
    ensures up + down + same == |list|
    ensures valueBefore == TotalWorth(before, before, list) && valueAfter == TotalWorth(before, after, list)
  {
    hide Compared;
    NothingCompared(before, after);
    list := [];
    valueBefore, valueAfter := 0.0, 0.0;
    up, down, same := 0, 0, 0;
    for i := 0 to |order|
      invariant Compared(before, after, order[..i], list, valueBefore, valueAfter, up, down, same)
    {
      var k := order[i];
      NewAt(order, i);
      assert order[..i + 1] == order[..i] + [k];
      OneMoreCompared(before, after, order[..i], list, valueBefore, valueAfter, up, down, same, k);
      if EvaluableIn(before, k) && EvaluableIn(after, k) {
        var price, b, a := Price(before[k]), before[k].value.value, after[k].value.value;
        list := list + [k];
        valueBefore := valueBefore + Worth(price, b);
        valueAfter := valueAfter + Worth(price, a);
        if a > b {
          up := up + 1;
        } else if a < b {
          down := down + 1;
        } else {
          same := same + 1;
        }
      }
    }
    assert order[..|order|] == order;
    AllCompared(before, after, order, list, valueBefore, valueAfter, up, down, same);
  }

  /** What was found over the keys seen so far. */
  ghost predicate Compared(before: map<Key, Parameter>, after: map<Key, Parameter>, seen: seq<Key>, list: seq<Key>,
                           valueBefore: real, valueAfter: real, up: nat, down: nat, same: nat)
  {
    && NoRepeats(list) && (forall k :: k in list <==> k in seen && EvaluableIn(before, k) && EvaluableIn(after, k))
    && (forall j | 0 <= j < |list| :: EvaluableIn(before, list[j]) && EvaluableIn(after, list[j]))
    && up == |PartOf(list, Rose(before, after))| && down == |PartOf(list, Fell(before, after))| && up + down + same == |list|
    && valueBefore == TotalWorth(before, before, list) && valueAfter == TotalWorth(before, after, list)
  }

  lemma NothingCompared(before: map<Key, Parameter>, after: map<Key, Parameter>)
    ensures Compared(before, after, [], [], 0.0, 0.0, 0, 0, 0)
  {
    assert PartOf([], Rose(before, after)) == {} == PartOf([], Fell(before, after));
  }

  lemma OneMoreCompared(before: map<Key, Parameter>, after: map<Key, Parameter>, seen: seq<Key>, list: seq<Key>,
                        valueBefore: real, valueAfter: real, up: nat, down: nat, same: nat, k: Key)
    requires Compared(before, after, seen, list, valueBefore, valueAfter, up, down, same) && k !in seen
    ensures if EvaluableIn(before, k) && EvaluableIn(after, k) then
              var price, b, a := Price(before[k]), before[k].value.value, after[k].value.value;
              Compared(before, after, seen + [k], list + [k], valueBefore + Worth(price, b), valueAfter + Worth(price, a),
                       if a > b then up + 1 else up, if a < b then down + 1 else down, if a == b then same + 1 else same)
            else Compared(before, after, seen + [k], list, valueBefore, valueAfter, up, down, same)
  {
    hide Worth, TotalWorth, NoRepeats, PartOf, Rose, Fell;
    if EvaluableIn(before, k) && EvaluableIn(after, k) {
      OneMoreWorth(before, before, list, k);
      OneMoreWorth(before, after, list, k);
      WhichWay(before, after, k);
      MorePart(list, Rose(before, after), k);
      MorePart(list, Fell(before, after), k);
      NoRepeatsAppend(list, k);
    }
  }

  lemma AllCompared(before: map<Key, Parameter>, after: map<Key, Parameter>, order: seq<Key>, list: seq<Key>,
                    valueBefore: real, valueAfter: real, up: nat, down: nat, same: nat)
    requires Compared(before, after, order, list, valueBefore, valueAfter, up, down, same)
    requires forall k :: k in order <==> k in before
    ensures NoRepeats(list) && (forall k :: k in list <==> EvaluableIn(before, k) && EvaluableIn(after, k))
    ensures forall i | 0 <= i < |list| :: EvaluableIn(before, list[i]) && EvaluableIn(after, list[i])
    ensures up == |Rose(before, after)| && down == |Fell(before, after)| && up + down + same == |list|
    ensures valueBefore == TotalWorth(before, before, list) && valueAfter == TotalWorth(before, after, list)
  {
    hide TotalWorth, NoRepeats;
    assert PartOf(list, Rose(before, after)) == Rose(before, after);
    assert PartOf(list, Fell(before, after)) == Fell(before, after);
  }

  /** Those of `whole` that are in the list. */
  ghost function PartOf(list: seq<Key>, whole: set<Key>): set<Key> {
    set k | k in whole && k in list
  }

  lemma MorePart(list: seq<Key>, whole: set<Key>, k: Key)
    requires k !in list
    ensures |PartOf(list + [k], whole)| == |PartOf(list, whole)| + if k in whole then 1 else 0
  {
    assert PartOf(list + [k], whole) == PartOf(list, whole) + if k in whole then {k} else {};
  }

  lemma WhichWay(before: map<Key, Parameter>, after: map<Key, Parameter>, k: Key)
    requires EvaluableIn(before, k) && EvaluableIn(after, k)
    ensures k in Rose(before, after) <==> after[k].value.value > before[k].value.value
    ensures k in Fell(before, after) <==> after[k].value.value < before[k].value.value
  {
  }

  lemma {:induction false} ListSize(list: seq<Key>)
    requires NoRepeats(list)
    ensures |Elements(list)| == |list|
  {
    if list == [] {
      assert Elements(list) == {};
    } else {
      ListSize(list[1..]);
      assert list[0] !in list[1..];
      assert Elements(list) == {list[0]} + Elements(list[1..]);
    }
  }

  function Elements(list: seq<Key>): set<Key> {
    set k | k in list
  }
}
