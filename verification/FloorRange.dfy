/** Carrying a score floor over to a new text score (scripts/oar_identity_review.py,
    `wilson_interval` and `equivalent_floor`). Scores and shares are exact reals. */
module FloorRange {
  import opened Wrappers

  // --- the Wilson interval ---------------------------------------------------------

  const Z: real := 1.96

  datatype Interval = Interval(low: real, high: real)

  function Share(successes: nat, trials: nat): real
    requires trials > 0
  {
    successes as real / trials as real
  }

  function Radicand(successes: nat, trials: nat): real
    requires trials > 0
  {
    var p, n := Share(successes, trials), trials as real;
    p * (1.0 - p) / n + Z * Z / (4.0 * n * n)
  }

  predicate IsRoot(root: real, x: real) {
    root >= 0.0 && root * root == x
  }

  function Max(a: real, b: real): real {
    if a <= b then b else a
  }

  function Min(a: real, b: real): real {
    if a <= b then a else b
  }

  function WilsonInterval(successes: nat, trials: nat, root: real): Interval
    requires trials > 0 ==> IsRoot(root, Radicand(successes, trials))
  {
    if trials == 0 then Interval(0.0, 1.0)
    else
      var p, n := Share(successes, trials), trials as real;
      var denominator := 1.0 + Z * Z / n;
      var centre := (p + Z * Z / (2.0 * n)) / denominator;
      var half := Z * root / denominator;
      Interval(Max(0.0, centre - half), Min(1.0, centre + half))
  }

  lemma PositiveProduct(x: real, y: real)
    requires x > 0.0 && y > 0.0
    ensures x * y > 0.0
  {
  }

  lemma PositiveSquare(x: real)
    requires x > 0.0
    ensures x * x > 0.0
  {
  }

  lemma NonNegativeProduct(x: real, y: real)
    requires x >= 0.0 && y >= 0.0
    ensures x * y >= 0.0
  {
  }

  lemma SquareLt(x: real, y: real)
    requires 0.0 <= y < x
    ensures y * y < x * x
  {
    calc {
      x * x;
    >  { PositiveProduct(x, x - y); assert x * (x - y) == x * x - x * y; }
      x * y;
    >= { NonNegativeProduct(y, x - y); assert y * (x - y) == x * y - y * y; }
      y * y;
    }
  }

  lemma SquaresBound(x: real, y: real)
    requires y >= 0.0 && x * x <= y * y
    ensures -y <= x <= y
  {
    if x > y {
      SquareLt(x, y);
    }
    assert (-x) * (-x) == x * x;
    if -x > y {
      SquareLt(-x, y);
    }
  }

  lemma ShareInUnit(successes: nat, trials: nat)
    requires 0 < trials && successes <= trials
    ensures 0.0 <= Share(successes, trials) <= 1.0
    ensures Share(successes, trials) * trials as real == successes as real
  {
    var n := trials as real;
    LeTimes(0.0, Share(successes, trials), n);
    LeTimes(Share(successes, trials), 1.0, n);
  }

  lemma QuotientSteps(c: real, s: real, n: real)
    requires n > 0.0
    ensures c * (s / n + c / (4.0 * n * n)) == (c / n) * s + (c / n) * (c / n) / 4.0
    ensures c / (2.0 * n) == (c / n) / 2.0
  {
    var q := 1.0 / n;
    assert s / n == s * q && c / n == c * q;
    assert c / (4.0 * n * n) == c * q * q / 4.0 by {
      assert n * q == 1.0;
      assert (c * q * q / 4.0) * (4.0 * n * n) == c * (n * q) * (n * q);
    }
  }

  /** Squared, `a * (0.5 - p)` falls short of `a * p * (1 - p) + a * a / 4` by `a * p * (1 - p) * (1 + a)`. */
  lemma DistanceBound(p: real, a: real, y: real)
    requires 0.0 <= p <= 1.0 && a > 0.0 && y >= 0.0
    requires y * y == a * (p * (1.0 - p)) + a * a / 4.0
    ensures -y <= a * (0.5 - p) <= y
  {
    var spread := p * (1.0 - p);
    NonNegativeProduct(p, 1.0 - p);
    PositiveSquare(a);
    NonNegativeProduct(a, spread);
    NonNegativeProduct(a * a, spread);
    var x := a * (0.5 - p);
    assert x * x == (a * a) * ((0.5 - p) * (0.5 - p));
    assert (0.5 - p) * (0.5 - p) == 0.25 - spread;
    assert x * x == a * a / 4.0 - (a * a) * spread;
    SquaresBound(x, y);
  }

  lemma ScaledRoot(z: real, root: real, p: real, n: real, a: real, y: real)
    requires n > 0.0 && a == z * z / n && y == z * root
    requires root * root == p * (1.0 - p) / n + z * z / (4.0 * n * n)
    ensures y * y == a * (p * (1.0 - p)) + a * a / 4.0
  {
    assert y * y == (z * z) * (root * root);
    QuotientSteps(z * z, p * (1.0 - p), n);
  }

  lemma PositiveRoot(root: real, x: real, y: real)
    requires root >= 0.0 && root * root == x + y && x >= 0.0 && y > 0.0
    ensures root > 0.0
  {
  }

  /** The interval always contains the observed share and never has zero width. */
  lemma WilsonContainsShare(successes: nat, trials: nat, root: real)
    requires 0 < trials && successes <= trials && IsRoot(root, Radicand(successes, trials))
    ensures var i := WilsonInterval(successes, trials, root);
            0.0 <= i.low <= Share(successes, trials) <= i.high <= 1.0 && i.low < i.high
  {
    var p, n := Share(successes, trials), trials as real;
    ShareInUnit(successes, trials);
    WilsonBounds(Z, p, n, root);
  }

  /** The share `p` of a sample of `n` lies z standard errors of `x` away from `x`. */
  ghost predicate ScoreEquation(z: real, p: real, n: real, x: real) {
    n * ((p - x) * (p - x)) == z * z * (x * (1.0 - x))
  }

  function LowEnd(z: real, p: real, n: real, root: real): real
    requires n > 0.0 && 1.0 + z * z / n > 0.0
  {
    (p + z * z / (2.0 * n)) / (1.0 + z * z / n) - z * root / (1.0 + z * z / n)
  }

  function HighEnd(z: real, p: real, n: real, root: real): real
    requires n > 0.0 && 1.0 + z * z / n > 0.0
  {
    (p + z * z / (2.0 * n)) / (1.0 + z * z / n) + z * root / (1.0 + z * z / n)
  }

  /** The interval's ends are the two solutions of the score equation: cutting it off at 0 and 1 changes nothing. */
  lemma WilsonSolves(successes: nat, trials: nat, root: real)
    requires 0 < trials && successes <= trials && IsRoot(root, Radicand(successes, trials))
    ensures var i, p, n := WilsonInterval(successes, trials, root), Share(successes, trials), trials as real;
            ScoreEquation(Z, p, n, i.low) && ScoreEquation(Z, p, n, i.high)
  {
    var p, n := Share(successes, trials), trials as real;
    ShareInUnit(successes, trials);
    hide ScoreEquation;
    EndsSolve(Z, p, n, root);
    IntervalEnds(successes, trials, root);
  }

  lemma IntervalEnds(successes: nat, trials: nat, root: real)
    requires 0 < trials && IsRoot(root, Radicand(successes, trials)) && 1.0 + Z * Z / trials as real > 0.0
    ensures var p, n := Share(successes, trials), trials as real;
            WilsonInterval(successes, trials, root) == Interval(Max(0.0, LowEnd(Z, p, n, root)), Min(1.0, HighEnd(Z, p, n, root)))
  {
    hide IsRoot, Radicand, Share;
  }

  lemma EndsSolve(z: real, p: real, n: real, root: real)
    requires z > 0.0 && n > 0.0 && 0.0 <= p <= 1.0
    requires root >= 0.0 && root * root == p * (1.0 - p) / n + z * z / (4.0 * n * n)
    ensures 1.0 + z * z / n > 0.0
    ensures 0.0 <= LowEnd(z, p, n, root) && HighEnd(z, p, n, root) <= 1.0
    ensures ScoreEquation(z, p, n, LowEnd(z, p, n, root)) && ScoreEquation(z, p, n, HighEnd(z, p, n, root))
  {
    hide LowEnd, HighEnd, ScoreEquation;
    Positives(z, n, p);
    var d := 1.0 + z * z / n;
    EndTimes(z, p, n, root, d);
    WilsonEnds(z, p, n, root, d, LowEnd(z, p, n, root), HighEnd(z, p, n, root));
  }

  lemma EndTimes(z: real, p: real, n: real, root: real, d: real)
    requires n > 0.0 && d == 1.0 + z * z / n > 0.0
    ensures LowEnd(z, p, n, root) * d == p + z * z / (2.0 * n) - z * root
    ensures HighEnd(z, p, n, root) * d == p + z * z / (2.0 * n) + z * root
  {
    Divided(p + z * z / (2.0 * n), z * root, d);
  }

  lemma Divided(x: real, y: real, d: real)
    requires d > 0.0
    ensures (x / d - y / d) * d == x - y && (x / d + y / d) * d == x + y
  {
    assert (x / d) * d == x && (y / d) * d == y;
  }

  lemma WilsonEnds(z: real, p: real, n: real, root: real, d: real, low: real, high: real)
    requires z > 0.0 && n > 0.0 && 0.0 <= p <= 1.0 && d == 1.0 + z * z / n
    requires root >= 0.0 && root * root == p * (1.0 - p) / n + z * z / (4.0 * n * n)
    requires low * d == p + z * z / (2.0 * n) - z * root && high * d == p + z * z / (2.0 * n) + z * root
    ensures 0.0 <= low && high <= 1.0
    ensures ScoreEquation(z, p, n, low) && ScoreEquation(z, p, n, high)
  {
    var a, y := z * z / n, z * root;
    Positives(z, n, p);
    NonNegativeProduct(z, root);
    ScaledRoot(z, root, p, n, a, y);
    QuotientSteps(z * z, 0.0, n);
    hide ScoreEquation;
    assert (-y) * (-y) == y * y;
    EndSolves(z, p, a, -y, n, d, low);
    EndSolves(z, p, a, y, n, d, high);
    EndsInUnit(p, a, y, d, low, high);
  }

  lemma EndSolves(z: real, p: real, a: real, y: real, n: real, d: real, x: real)
    requires d == 1.0 + a > 0.0 && n > 0.0 && a == z * z / n && x * d == p + a / 2.0 + y
    requires y * y == a * (p * (1.0 - p)) + a * a / 4.0
    ensures ScoreEquation(z, p, n, x)
  {
    assert n * a == z * z;
    SquareIsSpread(p, a, y, d, x);
    ScaleBoth(n, a, (p - x) * (p - x), x * (1.0 - x));
  }

  lemma SquareIsSpread(p: real, a: real, y: real, d: real, x: real)
    requires d == 1.0 + a > 0.0 && x * d == p + a / 2.0 + y
    requires y * y == a * (p * (1.0 - p)) + a * a / 4.0
    ensures (p - x) * (p - x) == a * (x * (1.0 - x))
  {
    var w, gap := x * d, (p - x) * (p - x) - a * (x * (1.0 - x));
    var middle := p + a / 2.0;
    assert w * w == middle * middle + 2.0 * (middle * y) + y * y;
    assert w * middle == middle * middle + middle * y;
    assert middle * middle == p * p + a * p + a * a / 4.0;
    assert gap == p * p - 2.0 * (middle * x) + d * (x * x);
    GapTimes(p, middle, x, d, gap);
    assert gap * d == 0.0;
    NoGap(gap, d);
  }

  lemma GapTimes(p: real, middle: real, x: real, d: real, gap: real)
    requires gap == p * p - 2.0 * (middle * x) + d * (x * x)
    ensures gap * d == p * p * d - 2.0 * ((x * d) * middle) + (x * d) * (x * d)
  {
    assert (middle * x) * d == (x * d) * middle;
    assert (d * (x * x)) * d == (x * d) * (x * d);
    assert gap * d == (p * p) * d - 2.0 * (middle * x) * d + (d * (x * x)) * d;
  }

  lemma NoGap(gap: real, d: real)
    requires d > 0.0 && gap * d == 0.0
    ensures gap == 0.0
  {
    if gap > 0.0 { PositiveProduct(gap, d); }
    if -gap > 0.0 { PositiveProduct(-gap, d); }
  }

  lemma ScaleBoth(n: real, a: real, square: real, spread: real)
    requires square == a * spread
    ensures n * square == (n * a) * spread
  {
  }

  lemma EndsInUnit(p: real, a: real, y: real, d: real, low: real, high: real)
    requires 0.0 <= p <= 1.0 && a > 0.0 && y >= 0.0 && d == 1.0 + a
    requires y * y == a * (p * (1.0 - p)) + a * a / 4.0
    requires low * d == p + a / 2.0 - y && high * d == p + a / 2.0 + y
    ensures 0.0 <= low && high <= 1.0
  {
    var spread := p * (1.0 - p);
    assert (1.0 - p) * (1.0 - (1.0 - p)) == spread;
    RootAtMost(p, spread, a, y);
    RootAtMost(1.0 - p, spread, a, y);
    AtLeastZero(low, d);
    assert (1.0 - high) * d == d - high * d;
    AtLeastZero(1.0 - high, d);
  }

  lemma AtLeastZero(x: real, d: real)
    requires d > 0.0 && x * d >= 0.0
    ensures x >= 0.0
  {
    assert (-x) * d == -(x * d);
    if x < 0.0 {
      PositiveProduct(-x, d);
    }
  }

  lemma RootAtMost(p: real, spread: real, a: real, y: real)
    requires 0.0 <= p <= 1.0 && a > 0.0 && y >= 0.0 && spread == p * (1.0 - p)
    requires y * y == a * spread + a * a / 4.0
    ensures y <= p + a / 2.0
  {
    var m := p + a / 2.0;
    NonNegativeProduct(p, p);
    NonNegativeProduct(a, p * p);
    assert m * m == p * p + a * p + a * a / 4.0;
    assert a * spread == a * p - a * (p * p);
    SquaresBound(y, m);
  }

  lemma SquareOver(z: real, n: real)
    requires z > 0.0 && n > 0.0
    ensures z * z / n > 0.0
  {
    PositiveProduct(z, z / n);
    assert z * (z / n) == z * z / n;
  }

  lemma Positives(z: real, n: real, p: real)
    requires 0.0 < z && n > 0.0 && 0.0 <= p <= 1.0
    ensures z * z / n > 0.0 && z * z / (4.0 * n * n) > 0.0 && p * (1.0 - p) / n >= 0.0
  {
    SquareOver(z, n);
    PositiveProduct(4.0 * n, n);
    SquareOver(z, 4.0 * n * n);
    NonNegativeProduct(p, (1.0 - p) / n);
    assert p * ((1.0 - p) / n) == p * (1.0 - p) / n;
  }

  lemma WilsonBounds(z: real, p: real, n: real, root: real)
    requires z > 0.0 && n > 0.0 && 0.0 <= p <= 1.0
    requires root >= 0.0 && root * root == p * (1.0 - p) / n + z * z / (4.0 * n * n)
    ensures var d := 1.0 + z * z / n;
            var centre, half := (p + z * z / (2.0 * n)) / d, z * root / d;
            0.0 < centre < 1.0 && half > 0.0 && centre - half <= p <= centre + half
  {
    var a := z * z / n;
    Positives(z, n, p);
    PositiveRoot(root, p * (1.0 - p) / n, z * z / (4.0 * n * n));
    PositiveProduct(z, root);
    var y := z * root;
    ScaledRoot(z, root, p, n, a, y);
    DistanceBound(p, a, y);
    CentreAndHalf(p, a, y);
    QuotientSteps(z * z, 0.0, n);
  }

  lemma CentreAndHalf(p: real, a: real, zr: real)
    requires 0.0 <= p <= 1.0 && 0.0 < a && 0.0 < zr && -zr <= a * (0.5 - p) <= zr
    ensures var d := 1.0 + a;
            var centre, half := (p + a / 2.0) / d, zr / d;
            0.0 < centre < 1.0 && half > 0.0 && centre - half <= p <= centre + half
  {
    var d := 1.0 + a;
    var centre, half := (p + a / 2.0) / d, zr / d;
    assert centre * d == p + a / 2.0 && half * d == zr;
    assert (centre - p) * d == a * (0.5 - p);
    assert (-half) * d == -zr;
    LeTimes(centre - p, half, d);
    LeTimes(-half, centre - p, d);
    LeTimes(half, 0.0, d);
    LeTimes(1.0, centre, d);
    LeTimes(centre, 0.0, d);
  }

  lemma LeTimes(x: real, y: real, d: real)
    requires d > 0.0
    ensures x <= y <==> x * d <= y * d
  {
    if x < y { assert (y - x) * d > 0.0; }
    if x > y { assert (x - y) * d > 0.0; }
  }

  // --- scores in descending order ----------------------------------------------------

  ghost predicate Descending(s: seq<real>) {
    forall i, j | 0 <= i < j < |s| :: s[i] >= s[j]
  }

  function Insert(x: real, s: seq<real>): seq<real> {
    if s == [] || x >= s[0] then [x] + s else [s[0]] + Insert(x, s[1..])
  }

  function SortDescending(s: seq<real>): (r: seq<real>)
    ensures |r| == |s|
  {
    if s == [] then [] else
      var rest := SortDescending(s[1..]);
      InsertLength(s[0], rest);
      Insert(s[0], rest)
  }

  lemma InsertLength(x: real, s: seq<real>)
    ensures |Insert(x, s)| == |s| + 1
  {
  }

  predicate Clears(strictly: bool, score: real, floor: real) {
    if strictly then score > floor else score >= floor
  }

  /** How many scores reach `floor`, or exceed it. */
  function CountClearing(strictly: bool, s: seq<real>, floor: real): nat {
    if s == [] then 0 else (if Clears(strictly, s[0], floor) then 1 else 0) + CountClearing(strictly, s[1..], floor)
  }

  lemma {:induction false} InsertCounts(strictly: bool, x: real, s: seq<real>, floor: real)
    ensures CountClearing(strictly, Insert(x, s), floor) ==
            CountClearing(strictly, s, floor) + if Clears(strictly, x, floor) then 1 else 0
  {
    if s == [] || x >= s[0] {
      assert ([x] + s)[1..] == s;
    } else {
      InsertCounts(strictly, x, s[1..], floor);
      assert Insert(x, s)[1..] == Insert(x, s[1..]);
    }
  }

  lemma {:induction false} SortCounts(strictly: bool, s: seq<real>, floor: real)
    ensures CountClearing(strictly, SortDescending(s), floor) == CountClearing(strictly, s, floor)
  {
    if s != [] {
      SortCounts(strictly, s[1..], floor);
      InsertCounts(strictly, s[0], SortDescending(s[1..]), floor);
    }
  }

  lemma {:induction false} InsertDescends(x: real, s: seq<real>)
    requires Descending(s)
    ensures Descending(Insert(x, s)) && forall y :: y in Insert(x, s) <==> y == x || y in s
  {
    if s != [] && x < s[0] {
      InsertDescends(x, s[1..]);
      var rest := Insert(x, s[1..]);
      assert s == [s[0]] + s[1..] && Insert(x, s) == [s[0]] + rest;
      forall i | 0 <= i < |rest| ensures s[0] >= rest[i] {
        assert rest[i] in rest;
        if rest[i] in s[1..] {
          var j :| 0 <= j < |s[1..]| && s[1..][j] == rest[i];
          assert s[j + 1] == rest[i];
        }
      }
      forall i, j | 0 <= i < j < |rest| + 1 ensures ([s[0]] + rest)[i] >= ([s[0]] + rest)[j] {
      }
    }
  }

  lemma {:induction false} SortDescends(s: seq<real>)
    ensures Descending(SortDescending(s)) && multiset(SortDescending(s)) == multiset(s)
  {
    if s != [] {
      SortDescends(s[1..]);
      InsertDescends(s[0], SortDescending(s[1..]));
      InsertKeeps(s[0], SortDescending(s[1..]));
      assert s == [s[0]] + s[1..];
    }
  }

  lemma {:induction false} InsertKeeps(x: real, s: seq<real>)
    ensures multiset(Insert(x, s)) == multiset(s) + multiset{x}
  {
    if s != [] && x < s[0] {
      InsertKeeps(x, s[1..]);
      assert s == [s[0]] + s[1..];
    }
  }

  /** In descending order the scores that clear a floor are exactly the first so many. */
  lemma {:induction false} ClearingIsPrefix(strictly: bool, s: seq<real>, floor: real)
    requires Descending(s)
    ensures CountClearing(strictly, s, floor) <= |s|
    ensures forall i | 0 <= i < |s| :: Clears(strictly, s[i], floor) <==> i < CountClearing(strictly, s, floor)
  {
    if s != [] {
      ClearingIsPrefix(strictly, s[1..], floor);
      forall i | 0 <= i < |s|
        ensures Clears(strictly, s[i], floor) <==> i < CountClearing(strictly, s, floor)
      {
        if i > 0 {
          assert s[i] == s[1..][i - 1] && s[0] >= s[i];
        } else if |s| > 1 {
          assert s[1..][0] == s[1] && s[0] >= s[1];
        }
      }
    }
  }

  // --- equivalent_floor ------------------------------------------------------------

  datatype Floors =
    | NotTheSamePairs
    | Floors(pairs: nat, admitted: nat, interval: Option<Interval>, proposed: Option<real>,
             range: Option<(real, real)>)

  function Ceiling(x: real): int {
    -((-x).Floor)
  }

  /** The rank matching the interval's upper count, kept within the list. */
  function KHigh(highCount: real, n: nat): int {
    var k := Ceiling(highCount);
    var atLeastOne := if k < 1 then 1 else k;
    if n < atLeastOne then n else atLeastOne
  }

  /** The rank matching the interval's lower count, at least one. */
  function KLow(lowCount: real): int {
    var k := lowCount.Floor;
    if k < 1 then 1 else k
  }

  /** The k-th highest new score, k the number of old scores that reach the old floor. */
  function ProposedFloor(oldScores: seq<real>, newScores: seq<real>, oldFloor: real): Option<real>
    requires |oldScores| == |newScores|
  {
    var k := CountClearing(false, oldScores, oldFloor);
    CountAtMost(false, oldScores, oldFloor);
    if k == 0 then None else Some(SortDescending(newScores)[k - 1])
  }

  /** The range's lower end is the highest floor that `highCount` new scores reach. Its upper end is reached by
      the whole part of `lowCount`, and by one at least, and fewer than that exceed it. */
  ghost predicate MatchesCounts(newScores: seq<real>, range: (real, real), lowCount: real, highCount: real) {
    && CountClearing(true, newScores, range.0) as real < highCount <= CountClearing(false, newScores, range.0) as real
    && lowCount - 1.0 < CountClearing(false, newScores, range.1) as real && CountClearing(false, newScores, range.1) >= 1
    && (CountClearing(true, newScores, range.1) as real + 1.0 <= lowCount || CountClearing(true, newScores, range.1) == 0)
  }

  /** How many of `n` a share stands for. */
  function CountAt(share: real, n: nat): real {
    share * n as real
  }

  ghost predicate MatchesInterval(newScores: seq<real>, range: (real, real), i: Interval) {
    MatchesCounts(newScores, range, CountAt(i.low, |newScores|), CountAt(i.high, |newScores|))
  }

  lemma RanksMatch(newScores: seq<real>, k: nat, lowCount: real, highCount: real)
    requires 1 <= k <= |newScores| && lowCount <= k as real <= highCount <= |newScores| as real
    ensures Bracketed(k, |newScores|, lowCount, highCount)
    ensures var sorted := SortDescending(newScores);
            MatchesCounts(newScores, (sorted[KHigh(highCount, |newScores|) - 1], sorted[KLow(lowCount) - 1]), lowCount, highCount)
  {
    hide CountClearing, SortDescending;
    RangeFromRanks(newScores, k, lowCount, highCount);
    RankReals(|newScores|, lowCount, highCount);
  }

  lemma RankReals(n: nat, lowCount: real, highCount: real)
    requires 1.0 <= highCount <= n as real
    ensures highCount <= KHigh(highCount, n) as real < highCount + 1.0
    ensures KLow(lowCount) >= 1 && lowCount - 1.0 < KLow(lowCount) as real
    ensures KLow(lowCount) == 1 || KLow(lowCount) as real <= lowCount
  {
  }

  /** The new scores at the two ranks matching the interval's counts. */
  function RangeAt(newScores: seq<real>, k: nat, i: Interval): (r: (real, real))
    requires 1 <= k <= |newScores| && CoversCount(i, k, |newScores|)
    ensures r.0 in newScores && r.1 in newScores && r.0 <= SortDescending(newScores)[k - 1] <= r.1
    ensures MatchesInterval(newScores, r, i)
  {
    hide *;
    RangeFits(newScores, k, i);
    var sorted := SortDescending(newScores);
    (sorted[KHigh(CountAt(i.high, |newScores|), |newScores|) - 1], sorted[KLow(CountAt(i.low, |newScores|)) - 1])
  }

  lemma RangeFits(newScores: seq<real>, k: nat, i: Interval)
    requires 1 <= k <= |newScores| && CoversCount(i, k, |newScores|)
    ensures 1 <= KLow(CountAt(i.low, |newScores|)) <= k <= KHigh(CountAt(i.high, |newScores|), |newScores|) <= |newScores|
    ensures var sorted := SortDescending(newScores);
            var r := (sorted[KHigh(CountAt(i.high, |newScores|), |newScores|) - 1], sorted[KLow(CountAt(i.low, |newScores|)) - 1]);
            r.0 in newScores && r.1 in newScores && r.0 <= sorted[k - 1] <= r.1 && MatchesInterval(newScores, r, i)
  {
    hide KHigh, KLow, CountClearing, SortDescending, MatchesCounts, CountAt;
    var lowCount, highCount := CountAt(i.low, |newScores|), CountAt(i.high, |newScores|);
    RangeFromRanks(newScores, k, lowCount, highCount);
    RanksMatch(newScores, k, lowCount, highCount);
  }

  function EquivalentFloor(oldScores: seq<real>, newScores: seq<real>, oldFloor: real, root: real): Floors
    requires var n, k := |newScores|, CountClearing(false, oldScores, oldFloor);
             n > 0 && |oldScores| == n ==> IsRoot(root, Radicand(k, n))
  {
    hide *;
    if |oldScores| != |newScores| then NotTheSamePairs
    else if newScores == [] then Floors(0, 0, None, None, None)
    else
      var n, k := |newScores|, CountClearing(false, oldScores, oldFloor);
      CountAtMost(false, oldScores, oldFloor);
      var interval := WilsonInterval(k, n, root);
      WilsonCoversCount(k, n, root);
      Floors(n, k, Some(interval), ProposedFloor(oldScores, newScores, oldFloor),
             if k == 0 then None
             else Some(RangeAt(newScores, k, interval)))
  }

  /** The interval, scaled to counts, contains `k`. */
  predicate CoversCount(i: Interval, k: nat, n: nat) {
    CountAt(i.low, n) <= k as real <= CountAt(i.high, n) <= n as real
  }

  lemma WilsonCoversCount(k: nat, n: nat, root: real)
    requires 0 < n && k <= n && IsRoot(root, Radicand(k, n))
    ensures CoversCount(WilsonInterval(k, n, root), k, n)
  {
    WilsonContainsShare(k, n, root);
    ShareCounts(WilsonInterval(k, n, root), k, n);
  }

  lemma ShareCounts(i: Interval, k: nat, n: nat)
    requires 0 < n && k <= n && i.low <= Share(k, n) <= i.high <= 1.0
    ensures CoversCount(i, k, n)
  {
    ShareInUnit(k, n);
    Scaled(i.low, Share(k, n), i.high, n as real);
  }

  lemma Scaled(low: real, share: real, high: real, n: real)
    requires low <= share <= high <= 1.0 && n > 0.0
    ensures low * n <= share * n <= high * n <= n
  {
    LeTimes(low, share, n);
    LeTimes(share, high, n);
    LeTimes(high, 1.0, n);
  }

  lemma {:induction false} CountAtMost(strictly: bool, s: seq<real>, floor: real)
    ensures CountClearing(strictly, s, floor) <= |s|
  {
    if s != [] {
      CountAtMost(strictly, s[1..], floor);
    }
  }

  predicate Bracketed(k: nat, n: nat, lowCount: real, highCount: real) {
    && 1 <= KLow(lowCount) <= k <= KHigh(highCount, n) <= n
    && KHigh(highCount, n) as real >= highCount
    && (KLow(lowCount) > 1 ==> KLow(lowCount) as real <= lowCount)
  }

  /** The two ranks taken from the interval bracket the rank of the proposed floor. */
  lemma RanksBracket(k: nat, n: nat, lowCount: real, highCount: real)
    requires 1 <= k <= n && lowCount <= k as real <= highCount <= n as real
    ensures Bracketed(k, n, lowCount, highCount)
  {
  }

  /** The range brackets the proposed floor. At least as many scores as the rank of the upper count reach the
      lower end and fewer exceed it; so it is for the upper end and the rank of the lower count. */
  lemma RangeFromRanks(newScores: seq<real>, k: nat, lowCount: real, highCount: real)
    requires 1 <= k <= |newScores| && lowCount <= k as real <= highCount <= |newScores| as real
    ensures Bracketed(k, |newScores|, lowCount, highCount)
    ensures var n, sorted := |newScores|, SortDescending(newScores);
            var lower, upper := sorted[KHigh(highCount, n) - 1], sorted[KLow(lowCount) - 1];
            && lower in newScores && upper in newScores && lower <= sorted[k - 1] <= upper
            && CountClearing(true, newScores, lower) < KHigh(highCount, n) <= CountClearing(false, newScores, lower)
            && CountClearing(true, newScores, upper) < KLow(lowCount) <= CountClearing(false, newScores, upper)
  {
    hide KHigh, KLow, CountClearing, SortDescending;
    RanksBracket(k, |newScores|, lowCount, highCount);
    RankClears(newScores, KHigh(highCount, |newScores|));
    RankClears(newScores, KLow(lowCount));
    SortDescends(newScores);
  }

  /** The proposed floor lies in the floor range. At least as many new scores reach it as old scores reached the
      old floor, and fewer exceed it. The range is the interval's: its ends match the counts that the ends of
      the score interval around the selectivity stand for. Nothing is proposed when the old floor admitted nothing. */
  lemma FloorRangeBrackets(oldScores: seq<real>, newScores: seq<real>, oldFloor: real, root: real)
    requires |oldScores| == |newScores| > 0
    requires IsRoot(root, Radicand(CountClearing(false, oldScores, oldFloor), |newScores|))
    ensures var f, n, k := EquivalentFloor(oldScores, newScores, oldFloor, root), |newScores|, CountClearing(false, oldScores, oldFloor);
            && f.Floors? && f.pairs == n && f.admitted == k && f.interval.Some?
            && f.interval.value.low < f.interval.value.high && f.interval.value.low <= Share(k, n) <= f.interval.value.high
            && ScoreEquation(Z, Share(k, n), n as real, f.interval.value.low)
            && ScoreEquation(Z, Share(k, n), n as real, f.interval.value.high)
            && (f.proposed.Some? <==> k > 0) && (f.range.Some? <==> k > 0)
            && (k > 0 ==>
                  && f.proposed.value in newScores && f.range.value.0 in newScores && f.range.value.1 in newScores
                  && f.range.value.0 <= f.proposed.value <= f.range.value.1
                  && CountClearing(true, newScores, f.proposed.value) < k <= CountClearing(false, newScores, f.proposed.value)
                  && MatchesInterval(newScores, f.range.value, f.interval.value))
  {
    hide WilsonInterval, IsRoot, CoversCount, RangeAt, MatchesInterval, ScoreEquation, Share, Radicand, CountClearing;
    hide SortDescending, EquivalentFloor;
    var n, k := |newScores|, CountClearing(false, oldScores, oldFloor);
    CountAtMost(false, oldScores, oldFloor);
    WilsonContainsShare(k, n, root);
    WilsonSolves(k, n, root);
    FloorsAre(oldScores, newScores, oldFloor, root);
    if k > 0 {
      RankClears(newScores, k);
    }
  }

  lemma FloorsAre(oldScores: seq<real>, newScores: seq<real>, oldFloor: real, root: real)
    requires |oldScores| == |newScores| > 0
    requires IsRoot(root, Radicand(CountClearing(false, oldScores, oldFloor), |newScores|))
    ensures var f, n, k := EquivalentFloor(oldScores, newScores, oldFloor, root), |newScores|, CountClearing(false, oldScores, oldFloor);
            && f.Floors? && f.pairs == n && f.admitted == k <= n && f.interval == Some(WilsonInterval(k, n, root))
            && (if k == 0 then f.proposed == None && f.range == None
                else f.proposed == Some(SortDescending(newScores)[k - 1]) && f.range.Some?
                     && f.range.value.0 in newScores && f.range.value.1 in newScores
                     && f.range.value.0 <= f.proposed.value <= f.range.value.1
                     && MatchesInterval(newScores, f.range.value, f.interval.value))
  {
    hide WilsonInterval, IsRoot, CoversCount, RangeAt, MatchesInterval, Share, Radicand, CountClearing, SortDescending;
    var n, k := |newScores|, CountClearing(false, oldScores, oldFloor);
    CountAtMost(false, oldScores, oldFloor);
    WilsonCoversCount(k, n, root);
  }

  /** Lists of different lengths are not for the same pairs; with no pairs there is nothing to say. */
  lemma WithoutPairs(oldScores: seq<real>, newScores: seq<real>, oldFloor: real, root: real)
    requires |oldScores| == |newScores| > 0 ==> IsRoot(root, Radicand(CountClearing(false, oldScores, oldFloor), |newScores|))
    ensures var f := EquivalentFloor(oldScores, newScores, oldFloor, root);
            && (f == NotTheSamePairs <==> |oldScores| != |newScores|)
            && (f == Floors(0, 0, None, None, None) <==> oldScores == newScores == [])
  {
    hide WilsonInterval, IsRoot, RangeAt, Share, Radicand;
  }

  /** The k-th highest score: at least k scores reach it, fewer than k exceed it, and exactly k reach
      it when and only when it does not tie with the next one. */
  lemma RankClears(scores: seq<real>, k: nat)
    requires 1 <= k <= |scores|
    ensures var sorted := SortDescending(scores);
            && sorted[k - 1] in scores
            && CountClearing(false, scores, sorted[k - 1]) >= k
            && CountClearing(true, scores, sorted[k - 1]) < k
            && (CountClearing(false, scores, sorted[k - 1]) == k <==> k == |scores| || sorted[k] < sorted[k - 1])
  {
    var sorted := SortDescending(scores);
    SortDescends(scores);
    assert sorted[k - 1] in multiset(sorted);
    ClearingIsPrefix(false, sorted, sorted[k - 1]);
    ClearingIsPrefix(true, sorted, sorted[k - 1]);
    SortCounts(false, scores, sorted[k - 1]);
    SortCounts(true, scores, sorted[k - 1]);
  }

  /** That the same count clears the proposed floor holds exactly when the next new score is lower. */
  lemma SameCountUnlessTied(oldScores: seq<real>, newScores: seq<real>, oldFloor: real)
    requires |oldScores| == |newScores| && CountClearing(false, oldScores, oldFloor) > 0
    ensures var k := CountClearing(false, oldScores, oldFloor);
            var proposed := ProposedFloor(oldScores, newScores, oldFloor);
            && proposed.Some? && k <= |newScores|
            && (CountClearing(false, newScores, proposed.value) == k <==>
                k == |newScores| || SortDescending(newScores)[k] < proposed.value)
  {
    CountAtMost(false, oldScores, oldFloor);
    RankClears(newScores, CountClearing(false, oldScores, oldFloor));
  }

  /** Two tied new scores: the old floor admitted one pair, the proposed floor admits both. */
  lemma TieAdmitsMore()
    ensures CountClearing(false, [0.6, 0.4], 0.5) == 1
    ensures ProposedFloor([0.6, 0.4], [0.7, 0.7], 0.5) == Some(0.7)
    ensures CountClearing(false, [0.7, 0.7], 0.7) == 2
  {
    assert [0.6, 0.4][1..] == [0.4] && [0.4][1..] == [];
    assert [0.7, 0.7][1..] == [0.7] && [0.7][1..] == [];
    assert CountClearing(false, [0.4], 0.5) == 0;
    assert CountClearing(false, [0.7], 0.7) == 1;
    assert SortDescending([0.7]) == [0.7];
  }
}
