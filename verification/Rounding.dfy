/** Python's `round(x)`: to the nearest integer, halves to the even one. Reals are exact. */
module Rounding {

  function Round(x: real): int {
    var f := x.Floor;
    var d := x - f as real;
    if d < 0.5 then f
    else if d > 0.5 then f + 1
    else if f % 2 == 0 then f else f + 1
  }

  lemma RoundIsNear(x: real)
    ensures x - 0.5 <= Round(x) as real <= x + 0.5
  {
  }

  lemma RoundMonotone(x: real, y: real)
    requires x <= y
    ensures Round(x) <= Round(y)
  {
  }

  lemma RoundOfInt(n: int)
    ensures Round(n as real) == n
  {
  }

  /** `max(1.0, round(quantity * share))`: part of a quantity, at least one. */
  function PartOf(quantity: int, share: real): int {
    var part := Round(quantity as real * share);
    if part <= 1 then 1 else part
  }

  /** Within half a unit of the share of a quantity, or one, and never more than the quantity. */
  ghost predicate IsPart(part: int, quantity: int, share: real) {
    && 1 <= part <= quantity && part as real >= quantity as real * share - 0.5
    && (part == 1 || part as real <= quantity as real * share + 0.5)
  }

  lemma PartWithin(quantity: int, share: real)
    requires quantity >= 1 && 0.0 <= share <= 1.0
    ensures IsPart(PartOf(quantity, share), quantity, share)
  {
    var q := quantity as real;
    ShareAtMost(q, share);
    RoundedPart(quantity, q * share);
  }

  lemma ShareAtMost(q: real, share: real)
    requires q >= 0.0 && 0.0 <= share <= 1.0
    ensures q * share <= q
  {
    assert q - q * share == q * (1.0 - share);
  }

  lemma RoundedPart(quantity: int, x: real)
    requires quantity >= 1 && x <= quantity as real
    ensures var part := if Round(x) <= 1 then 1 else Round(x);
            1 <= part <= quantity && part as real >= x - 0.5 && (part == 1 || part as real <= x + 0.5)
  {
    RoundIsNear(x);
    RoundMonotone(x, quantity as real);
    RoundOfInt(quantity);
    hide Round;
  }
}
