/** Splitting a closing stock across batches (data-generator/generate.py, `split_quantity` and
    `build_batch_stock`), in thousandths of a unit. */
module BatchStock {
  import opened Rounding

  function Sum(s: seq<int>): int {
    if s == [] then 0 else Sum(s[..|s| - 1]) + s[|s| - 1]
  }

  /** The shares that become batch rows. */
  function Kept(s: seq<int>): seq<int> {
    if s == [] then []
    else if s[|s| - 1] > 0 then Kept(s[..|s| - 1]) + [s[|s| - 1]] else Kept(s[..|s| - 1])
  }

  ghost predicate Cuts(total: int, cuts: seq<real>) {
    && (forall i | 0 <= i < |cuts| :: 0.0 <= cuts[i] <= total as real)
    && forall i, j | 0 <= i < j < |cuts| :: cuts[i] <= cuts[j]
  }

  function Edges(total: int, cuts: seq<real>): seq<real> {
    [0.0] + cuts + [total as real]
  }

  function Rounded(edges: seq<real>, count: nat): (r: seq<int>)
    requires count < |edges|
    ensures |r| == count
  {
    if count == 0 then [] else Rounded(edges, count - 1) + [Round(edges[count] - edges[count - 1])]
  }

  /** Each distance between neighbouring cuts, rounded, except that the last share takes what is left. */
  function Shares(total: int, cuts: seq<real>): seq<int> {
    var rounded := Rounded(Edges(total, cuts), |cuts|);
    rounded + [total - Sum(rounded)]
  }

  lemma {:induction false} RoundedNear(total: int, cuts: seq<real>, k: nat)
    requires Cuts(total, cuts) && k <= |cuts| && total >= 0
    ensures var rounded := Rounded(Edges(total, cuts), k);
            && (forall i | 0 <= i < k :: rounded[i] >= 0)
            && Sum(rounded) as real <= Edges(total, cuts)[k] + k as real * 0.5
  {
    hide Round;
    if k > 0 {
      RoundedNear(total, cuts, k - 1);
      EdgesIncrease(total, cuts, k);
      var edges := Edges(total, cuts);
      NextIsNear(edges[k - 1], edges[k], Sum(Rounded(edges, k - 1)), k);
      SumAppend(Rounded(edges, k - 1), Round(edges[k] - edges[k - 1]));
    }
  }

  lemma NextIsNear(before: real, edge: real, sum: int, k: nat)
    requires k > 0 && before <= edge && sum as real <= before + (k - 1) as real * 0.5
    ensures Round(edge - before) >= 0 && (sum + Round(edge - before)) as real <= edge + k as real * 0.5
  {
    RoundIsNear(edge - before);
    RoundOfInt(0);
    RoundMonotone(0.0, edge - before);
  }

  lemma EdgesIncrease(total: int, cuts: seq<real>, k: nat)
    requires Cuts(total, cuts) && 1 <= k <= |cuts| && total >= 0
    ensures 0.0 <= Edges(total, cuts)[k - 1] <= Edges(total, cuts)[k] <= total as real
  {
  }

  lemma SumAppend(s: seq<int>, x: int)
    ensures Sum(s + [x]) == Sum(s) + x
  {
    assert (s + [x])[..|s|] == s;
  }

  lemma {:induction false} KeptOfNonNegative(s: seq<int>)
    requires forall i | 0 <= i < |s| :: s[i] >= 0
    ensures Sum(Kept(s)) == Sum(s)
  {
    if s != [] {
      var rest := s[..|s| - 1];
      KeptOfNonNegative(rest);
      if s[|s| - 1] > 0 {
        assert (Kept(rest) + [s[|s| - 1]])[..|Kept(rest)|] == Kept(rest);
      }
    }
  }

  /** The shares add back up to the total exactly, and only the last can be negative, by at most half a
      thousandth for each of the others. */
  lemma SharesAddUp(total: int, cuts: seq<real>)
    requires Cuts(total, cuts) && total >= 0
    ensures Sum(Shares(total, cuts)) == total
    ensures forall i | 0 <= i < |cuts| :: Shares(total, cuts)[i] >= 0
    ensures -(|cuts| as int) <= 2 * Shares(total, cuts)[|cuts|]
  {
    var n := |cuts|;
    RoundedNear(total, cuts, n);
    EdgeWithin(total, cuts, n);
    var rounded := Rounded(Edges(total, cuts), n);
    hide Rounded, Cuts, Sum;
    SumAppend(rounded, total - Sum(rounded));
    HalvesAddUp(Sum(rounded), total, n, Edges(total, cuts)[n]);
  }

  /** Each share but the last is the distance between neighbouring cuts, the first being at nothing, give or take
      half a thousandth. */
  ghost predicate MatchCuts(shares: seq<int>, cuts: seq<real>) {
    && |shares| == |cuts| + 1
    && forall i | 0 <= i < |cuts| ::
         var width := cuts[i] - if i == 0 then 0.0 else cuts[i - 1];
         width - 0.5 <= shares[i] as real <= width + 0.5
  }

  lemma {:induction false} RoundedIs(edges: seq<real>, count: nat)
    requires count < |edges|
    ensures forall i | 0 <= i < count :: Rounded(edges, count)[i] == Round(edges[i + 1] - edges[i])
  {
    hide Round;
    if count > 0 {
      RoundedIs(edges, count - 1);
    }
  }

  lemma SharesMatchCuts(total: int, cuts: seq<real>)
    ensures MatchCuts(Shares(total, cuts), cuts)
  {
    var edges := Edges(total, cuts);
    RoundedIs(edges, |cuts|);
    hide Round, Rounded;
    forall i | 0 <= i < |cuts|
      ensures var width := cuts[i] - if i == 0 then 0.0 else cuts[i - 1];
              width - 0.5 <= Shares(total, cuts)[i] as real <= width + 0.5
    {
      RoundIsNear(edges[i + 1] - edges[i]);
    }
  }

  lemma EdgeWithin(total: int, cuts: seq<real>, k: nat)
    requires Cuts(total, cuts) && k <= |cuts| && total >= 0
    ensures Edges(total, cuts)[k] <= total as real
  {
  }

  lemma HalvesAddUp(sum: int, total: int, n: nat, edge: real)
    requires sum as real <= edge + n as real * 0.5 && edge <= total as real
    ensures 2 * (sum - total) <= n
  {
  }

  /** Dropping what is not positive leaves batches that add up to the stock, or exceed it by what the
      last share fell below zero. */
  lemma BatchesAddUp(total: int, cuts: seq<real>)
    requires Cuts(total, cuts) && total >= 0
    ensures var last := Shares(total, cuts)[|cuts|];
            && Sum(Kept(Shares(total, cuts))) == (if last < 0 then total - last else total)
            && 0 <= 2 * (Sum(Kept(Shares(total, cuts))) - total) <= |cuts|
    ensures forall i | 0 <= i < |Kept(Shares(total, cuts))| :: Kept(Shares(total, cuts))[i] > 0
  {
    var shares := Shares(total, cuts);
    var n := |cuts|;
    SharesAddUp(total, cuts);
    KeptOfNonNegative(shares[..n]);
    assert shares[..|shares| - 1] == shares[..n];
    if shares[n] > 0 {
      assert (Kept(shares[..n]) + [shares[n]])[..|Kept(shares[..n])|] == Kept(shares[..n]);
    }
    KeptArePositive(shares);
  }

  lemma {:induction false} KeptArePositive(s: seq<int>)
    ensures forall i | 0 <= i < |Kept(s)| :: Kept(s)[i] > 0
  {
    if s != [] {
      KeptArePositive(s[..|s| - 1]);
    }
  }

  lemma OvershootShares()
    ensures Rounded(Edges(5000, [0.6, 1.2, 4999.9]), 3) == [1, 1, 4999] && Cuts(5000, [0.6, 1.2, 4999.9])
  {
    var edges := Edges(5000, [0.6, 1.2, 4999.9]);
    assert edges == [0.0, 0.6, 1.2, 4999.9, 5000.0];
    assert Round(0.6) == 1 && Round(1.2 - 0.6) == 1 && Round(4999.9 - 1.2) == 4999;
    hide Round;
    assert Rounded(edges, 0) == [] && Rounded(edges, 1) == [1] && Rounded(edges, 2) == [1, 1];
  }

  /** Five units cut at 0.6, 1.2 and 4999.9 thousandths: the last share is -1, and the batches kept
      exceed the stock by a thousandth. */
  lemma OvershootHappens()
    ensures Cuts(5000, [0.6, 1.2, 4999.9])
    ensures Shares(5000, [0.6, 1.2, 4999.9]) == [1, 1, 4999, -1]
    ensures Sum(Kept(Shares(5000, [0.6, 1.2, 4999.9]))) == 5001
  {
    hide Rounded, Edges, Kept, Round, Cuts;
    OvershootShares();
    SumAppend([], 1);
    SumAppend([1], 1);
    SumAppend([1, 1], 4999);
    assert [] + [1] == [1] && [1] + [1] == [1, 1] && [1, 1] + [4999] == [1, 1, 4999];
    BatchesAddUp(5000, [0.6, 1.2, 4999.9]);
  }
}
