/**
 * The mini-chart's trend classifier (`trendInfo` in MiniChart.tsx): the
 * ordinary-least-squares slope of the sample values against their index
 * 0..n-1 (not against their time), classified with a fixed threshold of 0.05.
 */
module Trend {
  import opened ChartData

  datatype Direction = Up | Down | Stagnant

  /** Smallest absolute slope that counts as a trend. */
  const Threshold: real := 0.05

  // ---------------------------------------------------------------------
  // The sums the source accumulates with `reduce`, written left to right
  // ---------------------------------------------------------------------

  /** Σ s[i]. */
  function Sum(s: seq<real>): real
  {
    if s == [] then 0.0 else Sum(s[..|s| - 1]) + s[|s| - 1]
  }

  /** Σ_{i < n} i: the sum of the index values 0..n-1. */
  function IndexSum(n: nat): real
  {
    if n == 0 then 0.0 else IndexSum(n - 1) + (n - 1) as real
  }

  /** Σ_{i < |ys|} (i - xMean) * (ys[i] - yMean): the slope's numerator. */
  function CrossSum(ys: seq<real>, xMean: real, yMean: real): real
  {
    if ys == [] then 0.0
    else CrossSum(ys[..|ys| - 1], xMean, yMean)
         + ((|ys| - 1) as real - xMean) * (ys[|ys| - 1] - yMean)
  }

  /** Σ_{i < n} (i - xMean)²: the slope's denominator. */
  function SquareSum(n: nat, xMean: real): real
  {
    if n == 0 then 0.0
    else SquareSum(n - 1, xMean) + ((n - 1) as real - xMean) * ((n - 1) as real - xMean)
  }

  /** The plotted values, in sample order (`data.map(d => d.y)`). */
  function Values(samples: seq<Sample>): (ys: seq<real>)
    ensures |ys| == |samples|
    ensures forall i :: 0 <= i < |samples| ==> ys[i] == samples[i].y
  {
    seq(|samples|, i requires 0 <= i < |samples| => samples[i].y)
  }

  function IndexMean(n: nat): real
    requires n > 0
  {
    IndexSum(n) / n as real
  }

  function Mean(ys: seq<real>): real
    requires |ys| > 0
  {
    Sum(ys) / |ys| as real
  }

  /**
   * The index variance never vanishes once there are two samples, so the
   * slope is well defined for every series the classifier divides on.
   */
  lemma {:induction false} SquareSumPositive(n: nat, xMean: real)
    requires n >= 2
    ensures SquareSum(n, xMean) > 0.0
  {
    if n == 2 {
      assert SquareSum(1, xMean) == (0.0 - xMean) * (0.0 - xMean);
      assert SquareSum(2, xMean) == xMean * xMean + (1.0 - xMean) * (1.0 - xMean);
      if xMean == 0.0 {
        assert (1.0 - xMean) * (1.0 - xMean) == 1.0;
      } else {
        assert xMean * xMean > 0.0;
      }
    } else {
      SquareSumPositive(n - 1, xMean);
      var d := (n - 1) as real - xMean;
      assert d * d >= 0.0;
    }
  }

  /** The least-squares slope of `ys` against the index, for two or more values. */
  function Slope(ys: seq<real>): real
    requires |ys| >= 2
  {
    var n := |ys|;
    SquareSumPositive(n, IndexMean(n));
    CrossSum(ys, IndexMean(n), Mean(ys)) / SquareSum(n, IndexMean(n))
  }

  /** The threshold classification of a slope. */
  function Classify(slope: real): (d: Direction)
    ensures d == Stagnant <==> -Threshold < slope < Threshold
    ensures d == Up <==> slope >= Threshold
    ensures d == Down <==> slope <= -Threshold
  {
    if (if slope < 0.0 then -slope else slope) < Threshold then Stagnant
    else if slope > 0.0 then Up
    else Down
  }

  /** The trend overlay's direction for a normalised series. */
  function TrendOf(samples: seq<Sample>): (d: Direction)
    ensures |samples| < 2 ==> d == Stagnant
    ensures |samples| >= 2 ==> d == Classify(Slope(Values(samples)))
  {
    if |samples| < 2 then Stagnant else Classify(Slope(Values(samples)))
  }

  // ---------------------------------------------------------------------
  // Algebra of the slope
  // ---------------------------------------------------------------------

  /** Σ (i - c) * s[i]: the index-weighted sum the numerator reduces to. */
  function Weighted(s: seq<real>, c: real): real
  {
    if s == [] then 0.0 else Weighted(s[..|s| - 1], c) + ((|s| - 1) as real - c) * s[|s| - 1]
  }

  /** Σ_{i < n} (i - c). */
  function Deviation(n: nat, c: real): real
  {
    if n == 0 then 0.0 else Deviation(n - 1, c) + ((n - 1) as real - c)
  }

  /** The index values 0, 1, ..., n-1. */
  function Indices(n: nat): (s: seq<real>)
    ensures |s| == n
    ensures forall i :: 0 <= i < n ==> s[i] == i as real
  {
    seq(n, i requires 0 <= i < n => i as real)
  }

  lemma {:induction false} IndexSumClosedForm(n: nat)
    ensures IndexSum(n) == (n * (n - 1)) as real / 2.0
  {
    if n > 0 {
      IndexSumClosedForm(n - 1);
      assert (n * (n - 1)) == ((n - 1) * (n - 2)) + 2 * (n - 1);
    }
  }

  /** The mean index of n samples is (n-1)/2. */
  lemma IndexMeanIsMiddle(n: nat)
    requires n > 0
    ensures IndexMean(n) == (n - 1) as real / 2.0
  {
    IndexSumClosedForm(n);
    assert (n * (n - 1)) as real == n as real * (n - 1) as real;
  }

  lemma {:induction false} DeviationClosedForm(n: nat, c: real)
    ensures Deviation(n, c) == IndexSum(n) - n as real * c
  {
    if n > 0 {
      DeviationClosedForm(n - 1, c);
      assert n as real * c == (n - 1) as real * c + c;
    }
  }

  /** The index deviations from their own mean cancel out. */
  lemma DeviationAtMeanIsZero(n: nat)
    requires n > 0
    ensures Deviation(n, IndexMean(n)) == 0.0
  {
    DeviationClosedForm(n, IndexMean(n));
  }

  lemma {:induction false} CrossSumIsWeighted(ys: seq<real>, c: real, m: real)
    ensures CrossSum(ys, c, m) == Weighted(ys, c) - m * Deviation(|ys|, c)
  {
    if ys != [] {
      CrossSumIsWeighted(ys[..|ys| - 1], c, m);
    }
  }

  lemma {:induction false} SquareSumIsWeighted(n: nat, c: real)
    ensures SquareSum(n, c) == Weighted(Indices(n), c) - c * Deviation(n, c)
  {
    if n > 0 {
      assert Indices(n)[..n - 1] == Indices(n - 1);
      SquareSumIsWeighted(n - 1, c);
    }
  }

  /** `Weighted` is linear in the series. */
  lemma {:induction false} WeightedIsLinear(s: seq<real>, a: seq<real>, b: seq<real>, k: real, c: real)
    requires |a| == |s| && |b| == |s|
    requires forall i :: 0 <= i < |s| ==> s[i] == a[i] + k * b[i]
    ensures Weighted(s, c) == Weighted(a, c) + k * Weighted(b, c)
  {
    if s != [] {
      var n := |s|;
      WeightedIsLinear(s[..n - 1], a[..n - 1], b[..n - 1], k, c);
      var w := (n - 1) as real - c;
      assert w * s[n - 1] == w * a[n - 1] + k * (w * b[n - 1]);
    }
  }

  /** Taking the first value off shifts every remaining index down by one. */
  lemma {:induction false} WeightedFront(x: real, s: seq<real>, c: real)
    ensures Weighted([x] + s, c) == -c * x + Weighted(s, c - 1.0)
  {
    if s != [] {
      var n := |s|;
      assert ([x] + s)[..n] == [x] + s[..n - 1];
      WeightedFront(x, s[..n - 1], c);
    }
  }

  predicate NonDecreasing(d: seq<real>)
  {
    forall i, j :: 0 <= i < j < |d| ==> d[i] <= d[j]
  }

  predicate NonIncreasing(d: seq<real>)
  {
    forall i, j :: 0 <= i < j < |d| ==> d[i] >= d[j]
  }

  /** c * (a - b), distributed. */
  lemma Distribute(c: real, a: real, b: real)
    ensures c * (a - b) == c * a - c * b
  {
  }

  /** Taking off the first and the last value of a series centred on its middle index. */
  lemma WeightedPeel(d: seq<real>, c: real)
    requires |d| >= 2 && c == (|d| - 1) as real / 2.0
    ensures Weighted(d, c) == c * (d[|d| - 1] - d[0]) + Weighted(d[1..|d| - 1], c - 1.0)
  {
    var n := |d|;
    var m := d[1..n - 1];
    var first, last := d[0], d[n - 1];
    assert d[..n - 1] == [first] + m;
    WeightedFront(first, m, c);
    var inner := Weighted(m, c - 1.0);
    assert Weighted(d[..n - 1], c) == -c * first + inner;
    assert (n - 1) as real - c == c;
    assert Weighted(d, c) == -c * first + inner + c * last;
    Distribute(c, last, first);
  }

  /**
   * A non-decreasing series has a non-negative index covariance: pairing the
   * first value with the last peels both ends off, each pair adding
   * c * (last - first) >= 0.
   */
  lemma {:induction false} NonDecreasingCovariance(d: seq<real>)
    requires NonDecreasing(d)
    ensures Weighted(d, (|d| - 1) as real / 2.0) >= 0.0
    decreases |d|
  {
    var n := |d|;
    if n == 1 {
      assert Weighted(d, 0.0) == Weighted([], 0.0) + (0.0 - 0.0) * d[0];
    } else if n >= 2 {
      var m := d[1..n - 1];
      assert NonDecreasing(m);
      NonDecreasingCovariance(m);
      var c := (n - 1) as real / 2.0;
      WeightedPeel(d, c);
      assert c - 1.0 == (|m| - 1) as real / 2.0;
      var inner := Weighted(m, c - 1.0);
      assert inner >= 0.0;
      assert c >= 0.0 && d[n - 1] - d[0] >= 0.0;
      assert c * (d[n - 1] - d[0]) >= 0.0;
      assert Weighted(d, c) == c * (d[n - 1] - d[0]) + inner;
    }
  }

  /** A non-increasing series has a non-positive index covariance. */
  lemma {:induction false} NonIncreasingCovariance(d: seq<real>)
    requires NonIncreasing(d)
    ensures Weighted(d, (|d| - 1) as real / 2.0) <= 0.0
    decreases |d|
  {
    var n := |d|;
    if n == 1 {
      assert Weighted(d, 0.0) == Weighted([], 0.0) + (0.0 - 0.0) * d[0];
    } else if n >= 2 {
      var m := d[1..n - 1];
      assert NonIncreasing(m);
      NonIncreasingCovariance(m);
      var c := (n - 1) as real / 2.0;
      WeightedPeel(d, c);
      assert c - 1.0 == (|m| - 1) as real / 2.0;
      var inner := Weighted(m, c - 1.0);
      assert inner <= 0.0;
      assert c >= 0.0 && d[n - 1] - d[0] <= 0.0;
      assert c * (d[n - 1] - d[0]) <= 0.0;
      assert Weighted(d, c) == c * (d[n - 1] - d[0]) + inner;
    }
  }

  /** The numerator and denominator of the slope, once the means cancel. */
  lemma SlopeParts(ys: seq<real>)
    requires |ys| >= 2
    ensures CrossSum(ys, IndexMean(|ys|), Mean(ys)) == Weighted(ys, (|ys| - 1) as real / 2.0)
    ensures SquareSum(|ys|, IndexMean(|ys|)) == Weighted(Indices(|ys|), (|ys| - 1) as real / 2.0)
  {
    var n := |ys|;
    IndexMeanIsMiddle(n);
    DeviationAtMeanIsZero(n);
    CrossSumIsWeighted(ys, IndexMean(n), Mean(ys));
    SquareSumIsWeighted(n, IndexMean(n));
  }

  // ---------------------------------------------------------------------
  // What the classification promises
  // ---------------------------------------------------------------------

  /** Zero or one sample is always stagnant, whatever the value. */
  lemma ShortSeriesIsStagnant(samples: seq<Sample>)
    requires |samples| < 2
    ensures TrendOf(samples) == Stagnant
  {
  }

  /** A series whose values are all equal has slope 0 and is stagnant. */
  lemma ConstantSeriesIsStagnant(samples: seq<Sample>)
    requires forall i :: 0 <= i < |samples| ==> samples[i].y == samples[0].y
    ensures |samples| >= 2 ==> Slope(Values(samples)) == 0.0
    ensures TrendOf(samples) == Stagnant
  {
    if |samples| >= 2 {
      var ys := Values(samples);
      var n := |ys|;
      SlopeParts(ys);
      assert NonDecreasing(ys) && NonIncreasing(ys);
      NonDecreasingCovariance(ys);
      NonIncreasingCovariance(ys);
      assert CrossSum(ys, IndexMean(n), Mean(ys)) == 0.0;
      SquareSumPositive(n, IndexMean(n));
      assert Slope(ys) == 0.0;
      assert Classify(0.0) == Stagnant;
    }
  }

  /** Consecutive values that rise by at least 1. */
  predicate RisesByAtLeastOne(ys: seq<real>)
  {
    forall i :: 0 <= i < |ys| - 1 ==> ys[i] + 1.0 <= ys[i + 1]
  }

  /** Consecutive values that fall by at least 1. */
  predicate FallsByAtLeastOne(ys: seq<real>)
  {
    forall i :: 0 <= i < |ys| - 1 ==> ys[i + 1] + 1.0 <= ys[i]
  }

  lemma {:induction false} RiseAccumulates(ys: seq<real>, i: nat, j: nat)
    requires RisesByAtLeastOne(ys) && i <= j < |ys|
    ensures ys[i] + (j - i) as real <= ys[j]
    decreases j - i
  {
    if i < j {
      RiseAccumulates(ys, i + 1, j);
    }
  }

  lemma {:induction false} FallAccumulates(ys: seq<real>, i: nat, j: nat)
    requires FallsByAtLeastOne(ys) && i <= j < |ys|
    ensures ys[j] + (j - i) as real <= ys[i]
    decreases j - i
  {
    if i < j {
      FallAccumulates(ys, i + 1, j);
    }
  }

  /** Removing the index from a series that rises by 1 or more per step leaves it non-decreasing. */
  lemma RiseLessIndexNonDecreasing(ys: seq<real>, d: seq<real>)
    requires RisesByAtLeastOne(ys) && |d| == |ys|
    requires forall i :: 0 <= i < |d| ==> d[i] == ys[i] - i as real
    ensures NonDecreasing(d)
  {
    forall i, j | 0 <= i < j < |d| ensures d[i] <= d[j] {
      RiseAccumulates(ys, i, j);
    }
  }

  /** Adding the index to a series that falls by 1 or more per step leaves it non-increasing. */
  lemma FallPlusIndexNonIncreasing(ys: seq<real>, d: seq<real>)
    requires FallsByAtLeastOne(ys) && |d| == |ys|
    requires forall i :: 0 <= i < |d| ==> d[i] == ys[i] + i as real
    ensures NonIncreasing(d)
  {
    forall i, j | 0 <= i < j < |d| ensures d[i] >= d[j] {
      FallAccumulates(ys, i, j);
    }
  }

  /** Σ (i - c) * ys[i] is at least Σ (i - c) * i when every step rises by 1 or more. */
  lemma UnitRiseWeighted(ys: seq<real>)
    requires |ys| >= 2 && RisesByAtLeastOne(ys)
    ensures Weighted(ys, (|ys| - 1) as real / 2.0) >= Weighted(Indices(|ys|), (|ys| - 1) as real / 2.0)
  {
    var n := |ys|;
    var c := (n - 1) as real / 2.0;
    var d := seq(n, i requires 0 <= i < n => ys[i] - i as real);
    RiseLessIndexNonDecreasing(ys, d);
    NonDecreasingCovariance(d);
    WeightedIsLinear(ys, Indices(n), d, 1.0, c);
  }

  /** The index-shifted series `d` of a falling series has non-positive covariance and splits linearly. */
  lemma FallShiftedParts(ys: seq<real>, d: seq<real>, c: real)
    requires |ys| >= 2 && FallsByAtLeastOne(ys) && |d| == |ys| && c == (|ys| - 1) as real / 2.0
    requires forall i :: 0 <= i < |d| ==> d[i] == ys[i] + i as real
    ensures Weighted(d, c) <= 0.0
    ensures Weighted(d, c) == Weighted(ys, c) + 1.0 * Weighted(Indices(|ys|), c)
  {
    FallPlusIndexNonIncreasing(ys, d);
    NonIncreasingCovariance(d);
    WeightedIsLinear(d, ys, Indices(|ys|), 1.0, c);
  }

  /** Σ (i - c) * ys[i] is at most -Σ (i - c) * i when every step falls by 1 or more. */
  lemma UnitFallWeighted(ys: seq<real>)
    requires |ys| >= 2 && FallsByAtLeastOne(ys)
    ensures Weighted(ys, (|ys| - 1) as real / 2.0) <= -Weighted(Indices(|ys|), (|ys| - 1) as real / 2.0)
  {
    var n := |ys|;
    var c := (n - 1) as real / 2.0;
    var d := seq(n, i requires 0 <= i < n => ys[i] + i as real);
    FallShiftedParts(ys, d, c);
    BelowNegated(Weighted(ys, c), Weighted(d, c), Weighted(Indices(n), c));
  }

  lemma BelowNegated(w: real, x: real, y: real)
    requires x == w + 1.0 * y && x <= 0.0
    ensures w <= -y
  {
  }

  /** A quotient whose numerator is at least its positive denominator is at least 1. */
  lemma QuotientAtLeastOne(num: real, den: real)
    requires den > 0.0 && num >= den
    ensures num / den >= 1.0
  {
  }

  lemma QuotientAtMostMinusOne(num: real, den: real)
    requires den > 0.0 && num <= -den
    ensures num / den <= -1.0
  {
  }

  /** Values that rise by at least 1 per sample have slope at least 1. */
  lemma UnitRiseSlope(ys: seq<real>)
    requires |ys| >= 2 && RisesByAtLeastOne(ys)
    ensures Slope(ys) >= 1.0
  {
    var n := |ys|;
    UnitRiseWeighted(ys);
    SlopeParts(ys);
    SquareSumPositive(n, IndexMean(n));
    QuotientAtLeastOne(CrossSum(ys, IndexMean(n), Mean(ys)), SquareSum(n, IndexMean(n)));
  }

  /** Values that fall by at least 1 per sample have slope at most -1. */
  lemma UnitFallSlope(ys: seq<real>)
    requires |ys| >= 2 && FallsByAtLeastOne(ys)
    ensures Slope(ys) <= -1.0
  {
    var n := |ys|;
    UnitFallWeighted(ys);
    SlopeParts(ys);
    SquareSumPositive(n, IndexMean(n));
    QuotientAtMostMinusOne(CrossSum(ys, IndexMean(n), Mean(ys)), SquareSum(n, IndexMean(n)));
  }

  /** A series of whole numbers (holder counts). */
  predicate Integral(samples: seq<Sample>)
  {
    forall i :: 0 <= i < |samples| ==> samples[i].y == samples[i].y.Floor as real
  }

  /** Strictly increasing holder counts are classified as rising. */
  lemma IncreasingCountsTrendUp(samples: seq<Sample>)
    requires |samples| >= 2 && Integral(samples)
    requires forall i :: 0 <= i < |samples| - 1 ==> samples[i].y < samples[i + 1].y
    ensures TrendOf(samples) == Up
  {
    var ys := Values(samples);
    forall i | 0 <= i < |ys| - 1 ensures ys[i] + 1.0 <= ys[i + 1] {
      assert samples[i].y.Floor < samples[i + 1].y.Floor;
    }
    UnitRiseSlope(ys);
  }

  /** Strictly decreasing holder counts are classified as falling. */
  lemma DecreasingCountsTrendDown(samples: seq<Sample>)
    requires |samples| >= 2 && Integral(samples)
    requires forall i :: 0 <= i < |samples| - 1 ==> samples[i].y > samples[i + 1].y
    ensures TrendOf(samples) == Down
  {
    var ys := Values(samples);
    forall i | 0 <= i < |ys| - 1 ensures ys[i + 1] + 1.0 <= ys[i] {
      assert samples[i + 1].y.Floor < samples[i].y.Floor;
    }
    UnitFallSlope(ys);
  }

  /**
   * A strictly increasing series of real values need not be classified as
   * rising: a rise of 0.01 over two samples has slope 0.01, below the
   * threshold.
   */
  lemma SmallRealRiseIsStagnant()
    ensures TrendOf([Sample(0, 0.0), Sample(1, 0.01)]) == Stagnant
  {
    var samples := [Sample(0, 0.0), Sample(1, 0.01)];
    var ys := Values(samples);
    assert ys == [0.0, 0.01];
    assert IndexMean(2) == 0.5 by { IndexMeanIsMiddle(2); }
    assert ys[..1] == [0.0] && ys[..1][..0] == [];
    assert Sum([0.0]) == 0.0;
    assert Mean(ys) == 0.005;
    assert CrossSum([0.0], 0.5, 0.005) == 0.0025;
    assert CrossSum(ys, 0.5, 0.005) == 0.005;
    assert SquareSum(2, 0.5) == 0.5;
    assert Slope(ys) == 0.01;
  }

  /** The time-ordered example series 100, 150, 200 is classified as rising. */
  lemma RisingExampleTrendsUp()
    ensures TrendOf([Sample(1, 100.0), Sample(2, 150.0), Sample(3, 200.0)]) == Up
  {
    var ys := Values([Sample(1, 100.0), Sample(2, 150.0), Sample(3, 200.0)]);
    assert ys == [100.0, 150.0, 200.0];
    UnitRiseSlope(ys);
  }
}
