/** Stock as the dated ledger tells it: sums over movements, in posting order and by date. */
module Balances {
  import opened Ledger
  import opened Sequences

  function Signed(m: Movement): int {
    if m.debit then m.menge else -m.menge
  }

  function Total(ms: seq<Movement>): int {
    if ms == [] then 0 else Total(Front(ms)) + Signed(Last(ms))
  }

  /** The signed movements of one material-plant. */
  function Net(ms: seq<Movement>, key: PlantKey): int {
    if ms == [] then 0 else Net(Front(ms), key) + if Last(ms).key == key then Signed(Last(ms)) else 0
  }

  /** The same, counting only what is dated up to `day`. */
  function BalanceAt(ms: seq<Movement>, key: PlantKey, day: int): int {
    if ms == [] then 0
    else BalanceAt(Front(ms), key, day) + if Last(ms).key == key && Last(ms).budat <= day then Signed(Last(ms)) else 0
  }

  /** From `opening`, no prefix of the movements, in posting order, goes below zero. */
  ghost predicate NeverNegative(opening: int, ms: seq<Movement>) {
    opening + Total(ms) >= 0 && (ms == [] || NeverNegative(opening, Front(ms)))
  }

  ghost predicate InDateOrder(ms: seq<Movement>) {
    forall i, j | 0 <= i < j < |ms| :: ms[i].budat <= ms[j].budat
  }

  ghost predicate AllOf(ms: seq<Movement>, key: PlantKey) {
    forall i | 0 <= i < |ms| :: ms[i].key == key
  }

  lemma {:induction false} NetOfOwn(ms: seq<Movement>, key: PlantKey)
    requires AllOf(ms, key)
    ensures Net(ms, key) == Total(ms)
    ensures forall other | other != key :: Net(ms, other) == 0
  {
    if ms != [] {
      NetOfOwn(Front(ms), key);
    }
  }

  lemma {:induction false} BalanceOfOthers(ms: seq<Movement>, key: PlantKey, other: PlantKey, day: int)
    requires AllOf(ms, key) && other != key
    ensures BalanceAt(ms, other, day) == 0
  {
    if ms != [] {
      BalanceOfOthers(Front(ms), key, other, day);
    }
  }

  lemma {:induction false} NetConcat(a: seq<Movement>, b: seq<Movement>, key: PlantKey)
    ensures Net(a + b, key) == Net(a, key) + Net(b, key)
  {
    if b == [] {
      assert a + b == a;
    } else {
      assert Front(a + b) == a + Front(b);
      NetConcat(a, Front(b), key);
    }
  }

  lemma {:induction false} BalanceConcat(a: seq<Movement>, b: seq<Movement>, key: PlantKey, day: int)
    ensures BalanceAt(a + b, key, day) == BalanceAt(a, key, day) + BalanceAt(b, key, day)
  {
    if b == [] {
      assert a + b == a;
    } else {
      assert Front(a + b) == a + Front(b);
      BalanceConcat(a, Front(b), key, day);
    }
  }

  /** The movements of one material-plant, in posting order. */
  function Of(ms: seq<Movement>, key: PlantKey): seq<Movement> {
    if ms == [] then [] else Of(Front(ms), key) + if Last(ms).key == key then [Last(ms)] else []
  }

  lemma {:induction false} OfConcat(a: seq<Movement>, b: seq<Movement>, key: PlantKey)
    ensures Of(a + b, key) == Of(a, key) + Of(b, key)
  {
    if b == [] {
      assert a + b == a;
    } else {
      assert Front(a + b) == a + Front(b);
      OfConcat(a, Front(b), key);
    }
  }

  lemma {:induction false} OfOwn(ms: seq<Movement>, key: PlantKey)
    requires AllOf(ms, key)
    ensures Of(ms, key) == ms && forall other | other != key :: Of(ms, other) == []
  {
    if ms != [] {
      OfOwn(Front(ms), key);
    }
  }

  lemma {:induction false} NoneOfZero(ms: seq<Movement>, key: PlantKey, day: int)
    requires Of(ms, key) == []
    ensures Net(ms, key) == 0 && BalanceAt(ms, key, day) == 0
  {
    if ms != [] {
      NoneOfZero(Front(ms), key, day);
    }
  }

  lemma {:induction false} BalanceAfterAll(ms: seq<Movement>, key: PlantKey, day: int)
    requires forall i | 0 <= i < |ms| :: ms[i].budat <= day
    ensures BalanceAt(ms, key, day) == Net(ms, key)
  {
    if ms != [] {
      BalanceAfterAll(Front(ms), key, day);
    }
  }

  /** Movements posted in date order, never negative in posting order, are never negative by date. */
  lemma {:induction false} DatedNeverNegative(opening: int, ms: seq<Movement>, key: PlantKey, day: int)
    requires AllOf(ms, key) && InDateOrder(ms) && NeverNegative(opening, ms)
    ensures opening + BalanceAt(ms, key, day) >= 0
  {
    if ms != [] {
      if Last(ms).budat <= day {
        BalanceAfterAll(ms, key, day);
        NetOfOwn(ms, key);
      } else {
        DatedNeverNegative(opening, Front(ms), key, day);
      }
    }
  }

  function Counted(m: Movement, key: PlantKey, day: int): int {
    if m.key == key && m.budat <= day then Signed(m) else 0
  }

  lemma OneMovement(a: Movement, key: PlantKey, day: int)
    ensures BalanceAt([a], key, day) == Counted(a, key, day)
    ensures Net([a], key) == if a.key == key then Signed(a) else 0
  {
    assert Front([a]) == [];
  }

  lemma TwoMovements(a: Movement, b: Movement, key: PlantKey, day: int)
    ensures BalanceAt([a, b], key, day) == Counted(a, key, day) + Counted(b, key, day)
    ensures Net([a, b], key) == (if a.key == key then Signed(a) else 0) + (if b.key == key then Signed(b) else 0)
  {
    OneMovement(a, key, day);
    assert Front([a, b]) == [a];
  }
}
