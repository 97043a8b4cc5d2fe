/** Material numbers (data-generator/generate.py, `Counter`, the four material ranges and
    `build_materials`): when they are distinct. */
module MaterialNumbers {
  import opened Numbering
  import opened Sequences

  /** Which number range a material's story takes its number from. */
  datatype Range = Stocked | OnDemand | Repairable | Obsolete

  function Start(r: Range): nat {
    match r
    case Stocked => 10000000
    case OnDemand => 30000000
    case Repairable => 80000000
    case Obsolete => 90000000
  }

  const NUMBER_WIDTH: nat := 8
  const PADDED_WIDTH: nat := 18

  class Counter {
    var upcoming: nat
    const width: nat

    constructor (start: nat, width: nat)
      ensures upcoming == start && this.width == width
    {
      upcoming := start;
      this.width := width;
    }

    method Take() returns (number: string)
      modifies this
      ensures number == RightJustified(Decimal(old(upcoming)), width)
      ensures upcoming == old(upcoming) + 1
    {
      var value := upcoming;
      upcoming := upcoming + 1;
      number := RightJustified(Decimal(value), width);
    }
  }

  function Count(ranges: seq<Range>, r: Range): nat {
    if ranges == [] then 0
    else Count(ranges[..|ranges| - 1], r) + if ranges[|ranges| - 1] == r then 1 else 0
  }

  /** The number of the k-th material: as many on from its range's start as the range was used before. */
  function NumberAt(ranges: seq<Range>, k: nat): nat
    requires k < |ranges|
  {
    Start(ranges[k]) + Count(ranges[..k], ranges[k])
  }

  function NumberText(n: nat): string {
    RightJustified(RightJustified(Decimal(n), NUMBER_WIDTH), PADDED_WIDTH)
  }

  /** `build_materials`, as far as the numbers go: each material takes from its range's counter. */
  method NumberMaterials(ranges: seq<Range>) returns (numbers: seq<string>)
    ensures |numbers| == |ranges|
    ensures forall k | 0 <= k < |ranges| :: numbers[k] == NumberText(NumberAt(ranges, k))
  {
    hide RightJustified, Decimal;
    var stocked := new Counter(Start(Stocked), NUMBER_WIDTH);
    var onDemand := new Counter(Start(OnDemand), NUMBER_WIDTH);
    var repairable := new Counter(Start(Repairable), NUMBER_WIDTH);
    var obsolete := new Counter(Start(Obsolete), NUMBER_WIDTH);
    numbers := [];
    while |numbers| < |ranges|
      invariant |numbers| <= |ranges|
      invariant stocked.width == onDemand.width == repairable.width == obsolete.width == NUMBER_WIDTH
      invariant stocked.upcoming == Start(Stocked) + Count(ranges[..|numbers|], Stocked)
      invariant onDemand.upcoming == Start(OnDemand) + Count(ranges[..|numbers|], OnDemand)
      invariant repairable.upcoming == Start(Repairable) + Count(ranges[..|numbers|], Repairable)
      invariant obsolete.upcoming == Start(Obsolete) + Count(ranges[..|numbers|], Obsolete)
      invariant forall k | 0 <= k < |numbers| :: numbers[k] == NumberText(NumberAt(ranges, k))
    {
      var k := |numbers|;
      assert ranges[..k + 1][..k] == ranges[..k];
      var number: string;
      match ranges[k] {
        case Repairable => number := repairable.Take();
        case OnDemand => number := onDemand.Take();
        case Obsolete => number := obsolete.Take();
        case Stocked => number := stocked.Take();
      }
      numbers := numbers + [RightJustified(number, PADDED_WIDTH)];
    }
  }

  /** A range runs into the next one that is used. */
  predicate RunsInto(ranges: seq<Range>, low: Range, high: Range) {
    Count(ranges, low) > Start(high) - Start(low) && Count(ranges, high) > 0
  }

  predicate RangesOverlap(ranges: seq<Range>) {
    || RunsInto(ranges, Stocked, OnDemand) || RunsInto(ranges, Stocked, Repairable) || RunsInto(ranges, Stocked, Obsolete)
    || RunsInto(ranges, OnDemand, Repairable) || RunsInto(ranges, OnDemand, Obsolete)
    || RunsInto(ranges, Repairable, Obsolete)
  }

  lemma {:induction false} CountGrows(ranges: seq<Range>, r: Range, i: nat, j: nat)
    requires i <= j <= |ranges|
    ensures Count(ranges[..i], r) <= Count(ranges[..j], r)
    ensures i < j && ranges[i] == r ==> Count(ranges[..i], r) < Count(ranges[..j], r)
  {
    if i < j {
      assert ranges[..j][..j - 1] == ranges[..j - 1];
      if i < j - 1 { CountGrows(ranges, r, i, j - 1); }
    }
  }

  /** Every count below the range's total belongs to one material. */
  lemma {:induction false} NthOf(ranges: seq<Range>, r: Range, n: nat) returns (k: nat)
    requires n < Count(ranges, r)
    ensures k < |ranges| && ranges[k] == r && Count(ranges[..k], r) == n
  {
    var front := ranges[..|ranges| - 1];
    if n < Count(front, r) {
      k := NthOf(front, r, n);
      assert front[..k] == ranges[..k];
    } else {
      k := |ranges| - 1;
    }
  }

  lemma CountUpTo(ranges: seq<Range>, k: nat)
    requires k < |ranges|
    ensures Count(ranges[..k], ranges[k]) < Count(ranges, ranges[k])
  {
    CountGrows(ranges, ranges[k], k, |ranges|);
    assert ranges[..|ranges|] == ranges;
  }

  lemma SameNumberOverlaps(ranges: seq<Range>, i: nat, j: nat)
    requires i < j < |ranges| && NumberAt(ranges, i) == NumberAt(ranges, j)
    ensures RangesOverlap(ranges)
  {
    CountUpTo(ranges, i);
    CountUpTo(ranges, j);
    if ranges[i] == ranges[j] {
      CountGrows(ranges, ranges[i], i, j);
    } else if Start(ranges[i]) < Start(ranges[j]) {
      assert RunsInto(ranges, ranges[i], ranges[j]);
    } else {
      assert RunsInto(ranges, ranges[j], ranges[i]);
    }
  }

  lemma OverlapRepeats(ranges: seq<Range>, low: Range, high: Range) returns (i: nat, j: nat)
    requires Start(low) < Start(high) && RunsInto(ranges, low, high)
    ensures i < |ranges| && j < |ranges| && i != j && NumberAt(ranges, i) == NumberAt(ranges, j)
  {
    i := NthOf(ranges, low, Start(high) - Start(low));
    j := NthOf(ranges, high, 0);
  }

  lemma SomeOverlapRepeats(ranges: seq<Range>) returns (i: nat, j: nat)
    requires RangesOverlap(ranges)
    ensures i < |ranges| && j < |ranges| && i != j && NumberAt(ranges, i) == NumberAt(ranges, j)
  {
    var low :| (low == Stocked || low == OnDemand || low == Repairable)
               && exists high :: Start(low) < Start(high) && RunsInto(ranges, low, high);
    var high :| Start(low) < Start(high) && RunsInto(ranges, low, high);
    i, j := OverlapRepeats(ranges, low, high);
  }

  /** The numbers, as written out, are distinct exactly when no range runs into a later one in use:
      counters never stop at the end of their range. */
  lemma NumbersDistinct(ranges: seq<Range>, numbers: seq<string>)
    requires |numbers| == |ranges|
    requires forall k | 0 <= k < |ranges| :: numbers[k] == NumberText(NumberAt(ranges, k))
    ensures NoRepeats(numbers) <==> !RangesOverlap(ranges)
  {
    if RangesOverlap(ranges) {
      var i, j := SomeOverlapRepeats(ranges);
      var first, second := if i < j then i else j, if i < j then j else i;
      assert numbers[first] == numbers[second];
    } else {
      forall i, j | 0 <= i < j < |numbers| ensures numbers[i] != numbers[j] {
        if numbers[i] == numbers[j] {
          JustifiedReadsBack(NumberAt(ranges, i), NUMBER_WIDTH, PADDED_WIDTH);
          JustifiedReadsBack(NumberAt(ranges, j), NUMBER_WIDTH, PADDED_WIDTH);
          SameNumberOverlaps(ranges, i, j);
        }
      }
    }
  }

  /** So any run of up to ten million materials numbers them apart. */
  lemma {:induction false} FewMaterialsAreDistinct(ranges: seq<Range>, numbers: seq<string>)
    requires |ranges| <= 10000000 && |numbers| == |ranges|
    requires forall k | 0 <= k < |ranges| :: numbers[k] == NumberText(NumberAt(ranges, k))
    ensures NoRepeats(numbers)
  {
    CountWithin(ranges, Stocked);
    CountWithin(ranges, OnDemand);
    CountWithin(ranges, Repairable);
    NumbersDistinct(ranges, numbers);
  }

  lemma {:induction false} CountWithin(ranges: seq<Range>, r: Range)
    ensures Count(ranges, r) <= |ranges|
  {
    if ranges != [] {
      CountWithin(ranges[..|ranges| - 1], r);
    }
  }
}
