/** Choosing the review targets (scripts/oar_identity_review.py, `choose_targets`): the reported
    cases, a focus group, then one target at a time from each stratum in turn. */
module Sampling {
  import opened Arithmetic
  import opened Wrappers
  import opened Sequences

  /** `stratum` is the place of the stratum's label among all labels in string order. */
  datatype Target = Target(
    key: nat, group: nat, stratum: nat, hasDescription: bool, hasComponentType: bool,
    hasPartNumber: bool, eligibleDonors: nat)

  function Filter(p: Target -> bool, ts: seq<Target>): (r: seq<Target>)
    ensures forall t :: t in r <==> t in ts && p(t)
  {
    if ts == [] then [] else (if p(ts[0]) then [ts[0]] else []) + Filter(p, ts[1..])
  }

  /** The targets of one stratum, in the order they stand. */
  function Members(ts: seq<Target>, stratum: nat): seq<Target> {
    if ts == [] then []
    else
      var n := |ts| - 1;
      Members(ts[..n], stratum) + if ts[n].stratum == stratum then [ts[n]] else []
  }

  lemma {:induction false} InMembers(ts: seq<Target>, stratum: nat)
    ensures forall t :: t in Members(ts, stratum) <==> t in ts && t.stratum == stratum
  {
    if ts != [] {
      var n := |ts| - 1;
      InMembers(ts[..n], stratum);
      assert ts == ts[..n] + [ts[n]];
    }
  }

  lemma {:induction false} MembersAreDistinct(ts: seq<Target>, s: nat)
    requires DistinctKeys(ts)
    ensures DistinctKeys(Members(ts, s))
  {
    if ts != [] {
      var n := |ts| - 1;
      MembersAreDistinct(ts[..n], s);
      InMembers(ts[..n], s);
      forall t | t in Members(ts[..n], s) ensures t.key != ts[n].key {
        assert t in ts[..n];
      }
    }
  }

  ghost predicate DistinctKeys(ts: seq<Target>) {
    forall i, j | 0 <= i < j < |ts| :: ts[i].key != ts[j].key
  }

  function Keys(ts: seq<Target>): set<nat> {
    set t | t in ts :: t.key
  }

  // --- distinct keys --------------------------------------------------------------

  lemma {:induction false} FilterKeepsDistinct(p: Target -> bool, ts: seq<Target>)
    requires DistinctKeys(ts)
    ensures DistinctKeys(Filter(p, ts))
  {
    if ts != [] {
      FilterKeepsDistinct(p, ts[1..]);
      forall t | t in Filter(p, ts[1..]) ensures t.key != ts[0].key {
        assert t in ts[1..];
      }
    }
  }

  lemma JoinIsDistinct(a: seq<Target>, b: seq<Target>)
    requires DistinctKeys(a) && DistinctKeys(b) && Keys(a) !! Keys(b)
    ensures DistinctKeys(a + b)
  {
    forall i, j | 0 <= i < j < |a + b| ensures (a + b)[i].key != (a + b)[j].key {
      if i < |a| <= j {
        assert (a + b)[i].key in Keys(a) && (a + b)[j].key in Keys(b);
      }
    }
  }

  lemma {:induction false} KeyCount(ts: seq<Target>)
    ensures |Keys(ts)| <= |ts|
    ensures DistinctKeys(ts) <==> |Keys(ts)| == |ts|
  {
    if ts == [] {
      assert Keys(ts) == {};
    } else {
      KeyCount(ts[1..]);
      assert Keys(ts) == {ts[0].key} + Keys(ts[1..]);
      if ts[0].key !in Keys(ts[1..]) && DistinctKeys(ts[1..]) {
        assert ts == [ts[0]] + ts[1..];
        JoinIsDistinct([ts[0]], ts[1..]);
      }
      if ts[0].key in Keys(ts[1..]) {
        var t :| t in ts[1..] && t.key == ts[0].key;
        var j :| 0 < j < |ts| && ts[j] == t;
      }
    }
  }

  lemma RearrangedIsDistinct(a: seq<Target>, b: seq<Target>)
    requires DistinctKeys(a) && multiset(a) == multiset(b)
    ensures DistinctKeys(b) && |a| == |b| && Keys(a) == Keys(b) && forall t :: t in a <==> t in b
  {
    assert |multiset(a)| == |multiset(b)|;
    forall t ensures t in a <==> t in b {
      assert t in multiset(a) <==> t in multiset(b);
    }
    KeyCount(a);
    KeyCount(b);
    assert Keys(a) == Keys(b);
  }

  // --- _spread --------------------------------------------------------------------

  /** `count` items taken evenly across the list; the step is the exact quotient. */
  function Spread(items: seq<Target>, count: int): seq<Target> {
    if count <= 0 || items == [] then []
    else if |items| <= count then items
    else seq(count, i requires 0 <= i < count => PickInRange(i, |items|, count); items[i * |items| / count])
  }

  lemma DivBounds(x: nat, d: nat)
    requires d > 0
    ensures x / d * d <= x < x / d * d + d && x / d >= 0
  {
    assert x == d * (x / d) + x % d;
  }

  lemma PickInRange(i: nat, length: nat, count: nat)
    requires i < count < length
    ensures 0 <= i * length / count < length
  {
    DivBounds(i * length, count);
    MulLe(i, count - 1, length);
    assert (count - 1) * length == count * length - length;
    if i * length / count >= length {
      MulLe(length, i * length / count, count);
    }
  }

  lemma QuotientAtLeast(n: nat, d: nat, q: nat)
    requires d > 0 && q * d <= n
    ensures n / d >= q
  {
    DivBounds(n, d);
    if n / d + 1 <= q {
      MulLe(n / d + 1, q, d);
    }
  }

  lemma QuotientBelow(n: nat, d: nat, q: nat)
    requires d > 0 && n < q * d
    ensures n / d < q
  {
    DivBounds(n, d);
    if q <= n / d {
      MulLe(q, n / d, d);
    }
  }

  lemma SumDivides(a: nat, b: nat, d: nat)
    requires d > 0
    ensures a / d + b / d <= (a + b) / d <= a / d + b / d + 1
  {
    DivBounds(a, d);
    DivBounds(b, d);
    Distributes(a / d, b / d, d);
    QuotientAtLeast(a + b, d, a / d + b / d);
    QuotientBelow(a + b, d, a / d + b / d + 2);
  }

  lemma Distributes(x: nat, y: nat, d: nat)
    ensures (x + y) * d == x * d + y * d && (x + y + 2) * d == x * d + y * d + 2 * d
  {
  }

  /** Neighbouring picks lie `|items| / count` places apart, rounded down or up. */
  lemma SpreadIsEven(items: seq<Target>, count: nat, i: nat)
    requires 0 < count < |items| && i + 1 < count
    ensures |Spread(items, count)| == count
    ensures var here, next := i * |items| / count, (i + 1) * |items| / count;
            && 0 <= here < next < |items|
            && Spread(items, count)[i] == items[here] && Spread(items, count)[i + 1] == items[next]
            && |items| / count <= next - here <= |items| / count + 1
  {
    var n := |items|;
    PickInRange(i, n, count);
    PickInRange(i + 1, n, count);
    assert (i + 1) * n == i * n + n;
    SumDivides(i * n, n, count);
    DivBounds(n, count);
    if n / count < 1 { MulLe(n / count, 0, count); }
  }

  lemma {:induction false} PicksIncrease(n: nat, count: nat, i: nat, j: nat)
    requires 0 < count < n && i < j < count
    ensures i * n / count < j * n / count
  {
    assert (j - 1) * n + n == j * n;
    SumDivides((j - 1) * n, n, count);
    DivBounds(n, count);
    if n / count < 1 { MulLe(n / count, 0, count); }
    if i < j - 1 {
      PicksIncrease(n, count, i, j - 1);
    }
  }

  lemma SpreadIsDistinct(items: seq<Target>, count: int)
    requires DistinctKeys(items)
    ensures DistinctKeys(Spread(items, count)) && forall t | t in Spread(items, count) :: t in items
    ensures |Spread(items, count)| == Min(Max(count, 0), |items|)
  {
    if 0 < count < |items| {
      var picks := Spread(items, count);
      forall i | 0 <= i < count ensures picks[i] in items {
        PickInRange(i, |items|, count);
      }
      forall i, j | 0 <= i < j < count ensures picks[i].key != picks[j].key {
        PicksIncrease(|items|, count, i, j);
        PickInRange(i, |items|, count);
        PickInRange(j, |items|, count);
      }
    }
  }

  // --- shuffling and ordering -------------------------------------------------------

  function OfKind(componentType: bool, partNumber: bool): Target -> bool {
    (t: Target) => t.hasComponentType == componentType && t.hasPartNumber == partNumber
  }

  /** By kind of description, each kind in the order it came. */
  function SortByKind(ts: seq<Target>): seq<Target> {
    Filter(OfKind(false, false), ts) + Filter(OfKind(false, true), ts) +
    Filter(OfKind(true, false), ts) + Filter(OfKind(true, true), ts)
  }

  function OfKindCount(ts: seq<Target>, componentType: bool, partNumber: bool, x: Target): nat {
    multiset(Filter(OfKind(componentType, partNumber), ts))[x]
  }

  lemma KindFirst(ts: seq<Target>, componentType: bool, partNumber: bool, x: Target)
    requires ts != []
    ensures var counts := ts[0].hasComponentType == componentType && ts[0].hasPartNumber == partNumber && ts[0] == x;
            OfKindCount(ts, componentType, partNumber, x) ==
            OfKindCount(ts[1..], componentType, partNumber, x) + if counts then 1 else 0
  {
  }

  lemma KindsAdd(ts: seq<Target>, x: Target)
    ensures multiset(SortByKind(ts))[x] == OfKindCount(ts, false, false, x) + OfKindCount(ts, false, true, x) +
                                           OfKindCount(ts, true, false, x) + OfKindCount(ts, true, true, x)
  {
  }

  lemma {:induction false} KindsCount(ts: seq<Target>, x: Target)
    ensures OfKindCount(ts, false, false, x) + OfKindCount(ts, false, true, x) +
            OfKindCount(ts, true, false, x) + OfKindCount(ts, true, true, x) == multiset(ts)[x]
  {
    if ts != [] {
      KindsCount(ts[1..], x);
      KindFirst(ts, false, false, x);
      KindFirst(ts, false, true, x);
      KindFirst(ts, true, false, x);
      KindFirst(ts, true, true, x);
      hide OfKindCount;
      WithoutFirst(ts);
    }
  }

  lemma SortByKindRearranges(ts: seq<Target>)
    ensures multiset(SortByKind(ts)) == multiset(ts)
  {
    hide SortByKind, OfKindCount;
    forall x ensures multiset(SortByKind(ts))[x] == multiset(ts)[x] {
      KindsAdd(ts, x);
      KindsCount(ts, x);
    }
  }

  function KindOf(t: Target): nat {
    (if t.hasComponentType then 2 else 0) + if t.hasPartNumber then 1 else 0
  }

  /** Without a component type before with one, and without a part number before with one. */
  ghost predicate SortedByKind(ts: seq<Target>) {
    forall i, j | 0 <= i < j < |ts| :: KindOf(ts[i]) <= KindOf(ts[j])
  }

  lemma KindsAreSorted(ts: seq<Target>)
    ensures SortedByKind(SortByKind(ts))
  {
    var a, b := Filter(OfKind(false, false), ts), Filter(OfKind(false, true), ts);
    var c, d := Filter(OfKind(true, false), ts), Filter(OfKind(true, true), ts);
    var s := a + b + c + d;
    forall i | 0 <= i < |s|
      ensures KindOf(s[i]) == if i < |a| then 0 else if i < |a| + |b| then 1 else if i < |a| + |b| + |c| then 2 else 3
    {
      if i < |a| { assert s[i] == a[i] && a[i] in a; }
      else if i < |a| + |b| { assert s[i] == b[i - |a|] && b[i - |a|] in b; }
      else if i < |a| + |b| + |c| { assert s[i] == c[i - |a| - |b|] && c[i - |a| - |b|] in c; }
      else { assert s[i] == d[i - |a| - |b| - |c|] && d[i - |a| - |b| - |c|] in d; }
    }
    assert s == SortByKind(ts);
  }

  /** Larger strata first, then by label. */
  predicate Before(strata: map<nat, seq<Target>>, s: nat, u: nat)
    requires s in strata && u in strata
  {
    |strata[s]| > |strata[u]| || (|strata[s]| == |strata[u]| && s < u)
  }

  ghost predicate IsOrdered(strata: map<nat, seq<Target>>, order: seq<nat>) {
    && (forall s | s in order :: s in strata)
    && forall i, j | 0 <= i < j < |order| :: Before(strata, order[i], order[j])
  }

  function Insert(strata: map<nat, seq<Target>>, order: seq<nat>, s: nat): (r: seq<nat>)
    requires s in strata && s !in order && IsOrdered(strata, order)
    ensures IsOrdered(strata, r) && forall u :: u in r <==> u == s || u in order
  {
    if order == [] then [s]
    else if Before(strata, s, order[0]) then [s] + order
    else
      assert Before(strata, order[0], s);
      var rest := Insert(strata, order[1..], s);
      assert forall u | u in rest :: u in strata && Before(strata, order[0], u);
      [order[0]] + rest
  }

  method SortStrata(strata: map<nat, seq<Target>>) returns (order: seq<nat>)
    ensures IsOrdered(strata, order) && forall s :: s in order <==> s in strata
  {
    order := [];
    var left := strata.Keys;
    while left != {}
      invariant left <= strata.Keys && IsOrdered(strata, order)
      invariant forall s :: s in order <==> s in strata && s !in left
    {
      var s :| s in left;
      order := Insert(strata, order, s);
      left := left - {s};
    }
  }

  // --- the draw in turn --------------------------------------------------------------

  /** Two strata differ by at most one draw unless the one with fewer is used up, and then the extra
      draw went to the larger stratum. */
  ghost predicate Fair(rest: seq<Target>, drawn: seq<Target>) {
    forall s, u {:trigger Members(drawn, s), Members(drawn, u)} ::
      |Members(drawn, u)| < |Members(rest, u)| && |Members(drawn, u)| < |Members(drawn, s)| ==>
        && |Members(drawn, s)| == |Members(drawn, u)| + 1
        && (|Members(rest, s)| > |Members(rest, u)| || (|Members(rest, s)| == |Members(rest, u)| && s < u))
  }

  /** In the middle of a round: the first `upto` strata have had their turn. */
  ghost predicate InRound(rest: seq<Target>, drawn: seq<Target>, order: seq<nat>, round: nat, upto: nat) {
    forall j | 0 <= j < |order| ::
      |Members(drawn, order[j])| == Min(if j < upto then round + 1 else round, |Members(rest, order[j])|)
  }

  /** What is left of one stratum of `rest` once `drawn` has gone. */
  ghost predicate LeftOver(left: seq<Target>, rest: seq<Target>, drawn: seq<Target>, s: nat) {
    && DistinctKeys(left)
    && |Members(drawn, s)| + |left| == |Members(rest, s)|
    && forall t | t in left :: t in rest && t.stratum == s && t.key !in Keys(drawn)
  }

  /** `strata` holds, stratum by stratum, what is left of `rest` once `drawn` has gone. */
  ghost predicate Holds(strata: map<nat, seq<Target>>, rest: seq<Target>, drawn: seq<Target>) {
    && (forall s | s in strata :: LeftOver(strata[s], rest, drawn, s))
    && (forall t | t in rest :: t in drawn || (t.stratum in strata && t in strata[t.stratum]))
  }

  method GroupByStratum(rest: seq<Target>) returns (strata: map<nat, seq<Target>>)
    requires DistinctKeys(rest)
    ensures Holds(strata, rest, [])
    ensures forall s | s in strata :: |strata[s]| == |Members(rest, s)|
  {
    strata := map[];
    for i := 0 to |rest|
      invariant forall s :: s in strata <==> Members(rest[..i], s) != []
      invariant forall s | s in strata :: strata[s] == Members(rest[..i], s)
    {
      var t := rest[i];
      assert rest[..i + 1][..i] == rest[..i];
      strata := strata[t.stratum := (if t.stratum in strata then strata[t.stratum] else []) + [t]];
    }
    assert rest[..|rest|] == rest;
    forall t | t in rest ensures t.stratum in strata && t in strata[t.stratum] {
      InMembers(rest, t.stratum);
    }
    ghost var grouped := strata;
    strata := ShuffleStrata(strata);
    forall s | s in strata
      ensures LeftOver(strata[s], rest, [], s) && |strata[s]| == |Members(rest, s)|
      ensures forall t :: t in strata[s] <==> t in grouped[s]
    {
      MembersAreDistinct(rest, s);
      InMembers(rest, s);
      RearrangedIsDistinct(grouped[s], strata[s]);
    }
  }

  method ShuffleStrata(grouped: map<nat, seq<Target>>) returns (strata: map<nat, seq<Target>>)
    ensures strata.Keys == grouped.Keys
    ensures forall s | s in strata :: multiset(strata[s]) == multiset(grouped[s])
  {
    strata := grouped;
    var left := strata.Keys;
    while left != {}
      invariant strata.Keys == grouped.Keys && left <= strata.Keys
      invariant forall s | s in strata :: multiset(strata[s]) == multiset(grouped[s])
    {
      var s :| s in left;
      var shuffled := Shuffle(strata[s]);
      strata := strata[s := shuffled];
      left := left - {s};
    }
  }

  /** Taking the last target of a stratum off. */
  lemma DrawOne(strata: map<nat, seq<Target>>, rest: seq<Target>, drawn: seq<Target>, s: nat)
    requires DistinctKeys(rest) && Holds(strata, rest, drawn) && s in strata && strata[s] != []
    ensures var last := |strata[s]| - 1;
            Holds(strata[s := strata[s][..last]], rest, drawn + [strata[s][last]])
  {
    var last := |strata[s]| - 1;
    var t := strata[s][last];
    assert t in rest && t.stratum == s by { LastLeftOver(strata[s], rest, drawn, s); }
    hide LeftOver, Members, DistinctKeys;
    var more, after := drawn + [t], strata[s := strata[s][..last]];
    forall u | u in after ensures LeftOver(after[u], rest, more, u) {
      assert LeftOver(strata[u], rest, drawn, u);
      if u == s {
        LeftOverLessLast(strata[s], rest, drawn, s);
      } else {
        LeftOverElsewhere(strata[u], rest, drawn, u, t);
      }
    }
    assert strata[s] == strata[s][..last] + [t];
  }

  lemma LastLeftOver(left: seq<Target>, rest: seq<Target>, drawn: seq<Target>, s: nat)
    requires LeftOver(left, rest, drawn, s) && left != []
    ensures left[|left| - 1] in rest && left[|left| - 1].stratum == s
  {
    assert left[|left| - 1] in left;
  }

  lemma LeftOverLessLast(left: seq<Target>, rest: seq<Target>, drawn: seq<Target>, s: nat)
    requires LeftOver(left, rest, drawn, s) && left != []
    ensures LeftOver(left[..|left| - 1], rest, drawn + [left[|left| - 1]], s)
  {
    var t := left[|left| - 1];
    assert t in left;
    assert (drawn + [t])[..|drawn|] == drawn;
    assert Keys(drawn + [t]) == Keys(drawn) + {t.key};
  }

  lemma LeftOverElsewhere(left: seq<Target>, rest: seq<Target>, drawn: seq<Target>, s: nat, t: Target)
    requires LeftOver(left, rest, drawn, s) && t.stratum != s
    requires DistinctKeys(rest) && t in rest
    ensures LeftOver(left, rest, drawn + [t], s)
  {
    SameKeySameTarget(rest);
    assert (drawn + [t])[..|drawn|] == drawn;
    assert Keys(drawn + [t]) == Keys(drawn) + {t.key};
  }

  lemma SameKeySameTarget(ts: seq<Target>)
    requires DistinctKeys(ts)
    ensures forall t, u | t in ts && u in ts && t.key == u.key :: t == u
  {
  }

  /** Two strata in the order: one that is not used up and was drawn from less had its last turn later. */
  lemma LaterInRound(rest: seq<Target>, drawn: seq<Target>, order: seq<nat>, round: nat, upto: nat, j: nat, k: nat)
    requires InRound(rest, drawn, order, round, upto) && j < |order| && k < |order|
    requires |Members(drawn, order[k])| < |Members(rest, order[k])| && |Members(drawn, order[k])| < |Members(drawn, order[j])|
    ensures |Members(drawn, order[j])| == |Members(drawn, order[k])| + 1 && j < upto <= k
  {
    hide Members;
  }

  lemma InOrder(rest: seq<Target>, order: seq<nat>, s: nat) returns (j: nat)
    requires (forall t | t in rest :: t.stratum in order) && Members(rest, s) != []
    ensures j < |order| && order[j] == s
  {
    InMembers(rest, s);
    assert Members(rest, s)[0] in Members(rest, s);
    j :| 0 <= j < |order| && order[j] == s;
  }

  lemma RoundIsFair(strata: map<nat, seq<Target>>, rest: seq<Target>, drawn: seq<Target>, order: seq<nat>, round: nat,
                    upto: nat)
    requires IsOrdered(strata, order) && InRound(rest, drawn, order, round, upto)
    requires forall s | s in strata :: |strata[s]| == |Members(rest, s)|
    requires forall t | t in rest :: t.stratum in order
    requires forall t | t in drawn :: t in rest
    ensures Fair(rest, drawn)
  {
    hide Members, InRound;
    forall s, u | |Members(drawn, u)| < |Members(rest, u)| && |Members(drawn, u)| < |Members(drawn, s)|
      ensures && |Members(drawn, s)| == |Members(drawn, u)| + 1
              && (|Members(rest, s)| > |Members(rest, u)| || (|Members(rest, s)| == |Members(rest, u)| && s < u))
    {
      var j := InOrder(drawn, order, s);
      var k := InOrder(rest, order, u);
      LaterInRound(rest, drawn, order, round, upto, j, k);
    }
  }

  lemma DrawingStarts(strata: map<nat, seq<Target>>, rest: seq<Target>, order: seq<nat>)
    requires Holds(strata, rest, [])
    ensures Drawing(strata, rest, []) && InRound(rest, [], order, 0, 0)
  {
    hide Holds;
  }

  lemma NextRound(rest: seq<Target>, drawn: seq<Target>, order: seq<nat>, round: nat, upto: nat)
    requires InRound(rest, drawn, order, round, upto) && upto == |order|
    ensures InRound(rest, drawn, order, round + 1, 0)
  {
    forall j | 0 <= j < |order|
      ensures |Members(drawn, order[j])| == Min(round + 1, |Members(rest, order[j])|)
    {
      assert j < upto;
    }
  }

  /** Takes one target from each stratum in turn until there is no room or nothing left. */
  method DrawInTurn(rest: seq<Target>, room: int) returns (drawn: seq<Target>)
    requires DistinctKeys(rest)
    ensures DistinctKeys(drawn) && forall t | t in drawn :: t in rest
    ensures |drawn| == Min(Max(room, 0), |rest|)
    ensures Fair(rest, drawn)
  {
    hide Fair, InRound, Holds, DistinctKeys;
    var strata := GroupByStratum(rest);
    var order := SortStrata(strata);
    ghost var grouped := strata;
    ghost var round, upto := 0, 0;
    drawn := [];
    DrawingStarts(strata, rest, order);
    while |drawn| < room && exists j | 0 <= j < |order| :: strata[order[j]] != []
      invariant strata.Keys == grouped.Keys && Drawing(strata, rest, drawn)
      invariant |drawn| <= Max(room, 0)
      invariant InRound(rest, drawn, order, round, upto)
      invariant |drawn| < room ==> upto == 0
      decreases room - |drawn|
    {
      strata, drawn, upto := DrawRound(strata, order, rest, drawn, room, round);
      if |drawn| < room {
        NextRound(rest, drawn, order, round, upto);
        round, upto := round + 1, 0;
      }
    }
    RoundIsFair(grouped, rest, drawn, order, round, upto);
    AllDrawn(strata, rest, drawn);
  }

  /** One turn for each stratum, stopping when there is no more room. */
  method DrawRound(strata0: map<nat, seq<Target>>, order: seq<nat>, ghost rest: seq<Target>, drawn0: seq<Target>,
                   room: int, ghost round: nat)
    returns (strata: map<nat, seq<Target>>, drawn: seq<Target>, ghost upto: nat)
    requires DistinctKeys(rest) && Drawing(strata0, rest, drawn0)
    requires forall j | 0 <= j < |order| :: order[j] in strata0
    requires forall j, k | 0 <= j < k < |order| :: order[j] != order[k]
    requires InRound(rest, drawn0, order, round, 0)
    requires |drawn0| < room && exists j | 0 <= j < |order| :: strata0[order[j]] != []
    ensures strata.Keys == strata0.Keys && Drawing(strata, rest, drawn)
    ensures |drawn0| < |drawn| <= room
    ensures InRound(rest, drawn, order, round, upto) && (|drawn| < room ==> upto == |order|)
  {
    hide Drawing, InRound, DistinctKeys;
    strata, drawn := strata0, drawn0;
    ghost var j :| 0 <= j < |order| && strata[order[j]] != [];
    var i := 0;
    while i < |order|
      invariant 0 <= i <= |order|
      invariant strata.Keys == strata0.Keys && Drawing(strata, rest, drawn)
      invariant |drawn0| <= |drawn| <= room
      invariant InRound(rest, drawn, order, round, i)
      invariant |drawn| == |drawn0| ==> i <= j && strata[order[j]] != []
    {
      if |drawn| >= room {
        break;
      }
      var s := order[i];
      TurnKeeps(strata, rest, drawn, order, round, i);
      if strata[s] != [] {
        var last := |strata[s]| - 1;
        strata, drawn := strata[s := strata[s][..last]], drawn + [strata[s][last]];
      }
      i := i + 1;
    }
    upto := i;
  }

  ghost predicate Drawing(strata: map<nat, seq<Target>>, rest: seq<Target>, drawn: seq<Target>) {
    Holds(strata, rest, drawn) && DistinctKeys(drawn) && forall t | t in drawn :: t in rest
  }

  lemma TurnKeeps(strata: map<nat, seq<Target>>, rest: seq<Target>, drawn: seq<Target>, order: seq<nat>,
                  round: nat, i: nat)
    requires DistinctKeys(rest) && Drawing(strata, rest, drawn)
    requires i < |order| && order[i] in strata
    requires forall j, k | 0 <= j < k < |order| :: order[j] != order[k]
    requires InRound(rest, drawn, order, round, i)
    ensures var s := order[i];
            if strata[s] == [] then InRound(rest, drawn, order, round, i + 1)
            else
              var last := |strata[s]| - 1;
              Drawing(strata[s := strata[s][..last]], rest, drawn + [strata[s][last]]) &&
              InRound(rest, drawn + [strata[s][last]], order, round, i + 1)
  {
    var s := order[i];
    assert LeftOver(strata[s], rest, drawn, s);
    if strata[s] != [] {
      var t := strata[s][|strata[s]| - 1];
      assert t in strata[s];
      DrawOne(strata, rest, drawn, s);
      JoinIsDistinct(drawn, [t]);
      TurnTaken(rest, drawn, t, order, round, i);
    }
  }

  lemma AllDrawn(strata: map<nat, seq<Target>>, rest: seq<Target>, drawn: seq<Target>)
    requires DistinctKeys(rest) && Drawing(strata, rest, drawn)
    ensures |drawn| <= |rest| && ((forall s | s in strata :: strata[s] == []) ==> |drawn| == |rest|)
  {
    KeysWithin(drawn, rest);
  }

  lemma KeysWithin(a: seq<Target>, b: seq<Target>)
    requires DistinctKeys(a) && DistinctKeys(b) && forall t | t in a :: t in b
    ensures |a| <= |b|
    ensures (forall t | t in b :: t in a) ==> |a| == |b|
  {
    KeyCount(a);
    KeyCount(b);
    assert Keys(b) == Keys(a) + (Keys(b) - Keys(a));
    if forall t | t in b :: t in a {
      assert Keys(a) == Keys(b);
    }
  }

  lemma TurnTaken(rest: seq<Target>, drawn: seq<Target>, t: Target, order: seq<nat>, round: nat, i: nat)
    requires InRound(rest, drawn, order, round, i) && i < |order| && t.stratum == order[i]
    requires |Members(drawn, order[i])| < |Members(rest, order[i])|
    requires forall j, k | 0 <= j < k < |order| :: order[j] != order[k]
    ensures InRound(rest, drawn + [t], order, round, i + 1)
  {
    assert (drawn + [t])[..|drawn|] == drawn;
  }

  // --- choose_targets -----------------------------------------------------------------

  function Usable(minimumEligible: int): Target -> bool {
    (t: Target) => t.hasDescription && t.eligibleDonors >= minimumEligible
  }

  function Listed(reported: seq<nat>): Target -> bool {
    (t: Target) => t.key in reported
  }

  function FocusCandidate(group: nat, taken: set<nat>): Target -> bool {
    (t: Target) => t.group == group && t.key !in taken
  }

  function NotTaken(taken: set<nat>): Target -> bool {
    (t: Target) => t.key !in taken
  }

  /** How many targets are taken before the draw: every usable listed case, and the focus picks. */
  function PreselectedCount(usable: seq<Target>, reported: seq<nat>, focusGroup: Option<nat>, focusCount: int): nat {
    var listed := Filter(Listed(reported), usable);
    |listed| + match focusGroup
      case None => 0
      case Some(g) => Min(Max(focusCount, 0), |Filter(FocusCandidate(g, Keys(listed)), usable)|)
  }

  /** The focus picks are spread evenly over the usable targets of the group that are not reported, sorted by kind of
      description. */
  ghost predicate PicksSpread(picks: seq<Target>, focus: seq<Target>, usable: seq<Target>, reported: seq<nat>,
                              focusGroup: Option<nat>, focusCount: int)
  {
    match focusGroup
    case None => picks == []
    case Some(g) =>
      && DistinctKeys(focus) && (forall t :: t in focus <==> t in usable && t.group == g && t.key !in reported)
      && SortedByKind(focus) && picks == Spread(focus, focusCount)
  }

  method ChooseTargets(pool: seq<Target>, count: int, reported: seq<nat>, focusGroup: Option<nat>,
                       focusCount: int, minimumEligible: int)
    returns (chosen: seq<Target>, ghost focus: seq<Target>)
    requires DistinctKeys(pool)
    ensures DistinctKeys(chosen) && forall t | t in chosen :: t in pool && t.hasDescription && t.eligibleDonors >= minimumEligible
    ensures forall t | t in pool && t.hasDescription && t.eligibleDonors >= minimumEligible && t.key in reported :: t in chosen
    ensures var usable := Filter(Usable(minimumEligible), pool);
            var first := PreselectedCount(usable, reported, focusGroup, focusCount);
            && |chosen| == Max(first, Min(count, |usable|))
            && (forall t | t in chosen[..first] :: t.key in reported || Some(t.group) == focusGroup)
            && PicksSpread(chosen[|Filter(Listed(reported), usable)|..first], focus, usable, reported, focusGroup, focusCount)
            && Fair(Filter(NotTaken(Keys(chosen[..first])), usable), chosen[first..])
  {
    hide Spread, SortedByKind, PicksSpread, Fair, DistinctKeys, PreselectedCount;
    var usable := Filter(Usable(minimumEligible), pool);
    FilterKeepsDistinct(Usable(minimumEligible), pool);
    var first;
    first, focus := Preselect(usable, reported, focusGroup, focusCount);
    var rest := Filter(NotTaken(Keys(first)), usable);
    FilterKeepsDistinct(NotTaken(Keys(first)), usable);
    var drawn := DrawInTurn(rest, count - |first|);
    Apart(first, drawn, usable);
    JoinIsDistinct(first, drawn);
    ChosenAndRest(first, usable);
    ListedFirst(usable, reported, focusGroup, focusCount);
    chosen := first + drawn;
    assert chosen[..|first|] == first && chosen[|first|..] == drawn;
    ghost var listed := |Filter(Listed(reported), usable)|;
    assert chosen[listed..|first|] == first[listed..];
  }

  lemma Apart(first: seq<Target>, drawn: seq<Target>, usable: seq<Target>)
    requires forall t | t in drawn :: t in Filter(NotTaken(Keys(first)), usable)
    ensures Keys(first) !! Keys(drawn)
  {
  }

  lemma ListedFirst(usable: seq<Target>, reported: seq<nat>, focusGroup: Option<nat>, focusCount: int)
    ensures |Filter(Listed(reported), usable)| <= PreselectedCount(usable, reported, focusGroup, focusCount)
  {
  }

  lemma ChosenAndRest(chosen: seq<Target>, usable: seq<Target>)
    requires DistinctKeys(chosen) && DistinctKeys(usable) && forall t | t in chosen :: t in usable
    ensures |chosen| + |Filter(NotTaken(Keys(chosen)), usable)| == |usable|
  {
    var rest := Filter(NotTaken(Keys(chosen)), usable);
    FilterKeepsDistinct(NotTaken(Keys(chosen)), usable);
    KeyCount(chosen);
    KeyCount(rest);
    KeyCount(usable);
    forall k | k in Keys(usable) ensures k in Keys(chosen) + Keys(rest) {
      var t :| t in usable && t.key == k;
      assert t in rest <==> t.key !in Keys(chosen);
    }
    assert Keys(usable) == Keys(chosen) + Keys(rest);
    assert Keys(chosen) !! Keys(rest);
  }

  method Preselect(usable: seq<Target>, reported: seq<nat>, focusGroup: Option<nat>, focusCount: int)
    returns (chosen: seq<Target>, ghost focus: seq<Target>)
    requires DistinctKeys(usable)
    ensures DistinctKeys(chosen) && forall t | t in chosen :: t in usable
    ensures forall t | t in usable && t.key in reported :: t in chosen
    ensures forall t | t in chosen :: t.key in reported || Some(t.group) == focusGroup
    ensures |chosen| == PreselectedCount(usable, reported, focusGroup, focusCount)
    ensures PicksSpread(chosen[|Filter(Listed(reported), usable)|..], focus, usable, reported, focusGroup, focusCount)
  {
    chosen := TakeListed(usable, reported);
    focus := [];
    if focusGroup.Some? {
      var picks;
      picks, focus := PickFocus(usable, Keys(chosen), focusGroup.value, focusCount);
      hide Spread, SortedByKind, DistinctKeys, Filter, FocusCandidate, Listed;
      assert Keys(chosen) !! Keys(picks);
      JoinIsDistinct(chosen, picks);
      NotReported(usable, reported, chosen);
      ghost var listed := chosen;
      chosen := chosen + picks;
      assert chosen[|listed|..] == picks;
    }
  }

  lemma NotReported(usable: seq<Target>, reported: seq<nat>, chosen: seq<Target>)
    requires DistinctKeys(usable) && forall t :: t in chosen <==> t in usable && t.key in reported
    ensures forall t | t in usable :: t.key in Keys(chosen) <==> t.key in reported
  {
  }

  /** Every usable reported case, once. */
  method TakeListed(usable: seq<Target>, reported: seq<nat>) returns (chosen: seq<Target>)
    requires DistinctKeys(usable)
    ensures DistinctKeys(chosen) && forall t :: t in chosen <==> t in usable && t.key in reported
    ensures var listed := Filter(Listed(reported), usable); |chosen| == |listed| && Keys(chosen) == Keys(listed)
  {
    chosen := [];
    for i := 0 to |reported|
      invariant DistinctKeys(chosen) && forall t :: t in chosen <==> t in usable && t.key in reported[..i]
    {
      SameKeySameTarget(usable);
      if t :| t in usable && t.key == reported[i] {
        if t !in chosen {
          assert Keys(chosen) !! Keys([t]);
          JoinIsDistinct(chosen, [t]);
          chosen := chosen + [t];
        }
      }
    }
    SameSet(chosen, Filter(Listed(reported), usable), usable, Listed(reported));
  }

  /** Some of a group that are not taken yet, spread evenly over its kinds of description. */
  method PickFocus(usable: seq<Target>, taken: set<nat>, group: nat, focusCount: int)
    returns (picks: seq<Target>, ghost focus: seq<Target>)
    requires DistinctKeys(usable)
    ensures var candidates := Filter(FocusCandidate(group, taken), usable);
            |picks| == Min(Max(focusCount, 0), |candidates|)
    ensures SortedByKind(focus) && picks == Spread(focus, focusCount) && DistinctKeys(picks) && DistinctKeys(focus)
    ensures forall t :: t in focus <==> t in usable && t.group == group && t.key !in taken
    ensures forall t | t in picks :: t in usable && t.group == group && t.key !in taken
  {
    var p := FocusCandidate(group, taken);
    var candidates := Filter(p, usable);
    FilterKeepsDistinct(p, usable);
    hide Spread, SortByKind, SortedByKind, DistinctKeys;
    var shuffled := Shuffle(candidates);
    RearrangedIsDistinct(candidates, shuffled);
    SortByKindRearranges(shuffled);
    RearrangedIsDistinct(shuffled, SortByKind(shuffled));
    KindsAreSorted(shuffled);
    var sorted := SortByKind(shuffled);
    SpreadIsDistinct(sorted, focusCount);
    picks, focus := Spread(sorted, focusCount), sorted;
  }

  lemma SameSet(chosen: seq<Target>, listed: seq<Target>, usable: seq<Target>, p: Target -> bool)
    requires DistinctKeys(usable) && DistinctKeys(chosen) && listed == Filter(p, usable)
    requires forall t :: t in chosen <==> t in usable && p(t)
    ensures |chosen| == |listed| && Keys(chosen) == Keys(listed)
  {
    FilterKeepsDistinct(p, usable);
    KeyCount(chosen);
    KeyCount(listed);
    assert Keys(chosen) == Keys(listed);
  }
}
