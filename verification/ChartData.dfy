/**
 * The mini-chart's series normaliser (the `dataMemo` computation of
 * MiniChart.tsx): a stable ascending sort of the metric history by
 * timestamp, followed by a projection of every point to a plot sample.
 */
module ChartData {

  /** One snapshot of a token's metrics; `timestamp` is in milliseconds. */
  datatype HistoryPoint = HistoryPoint(timestamp: int, totalLiquidity: real, holderCount: int)

  /** Which field of a history point becomes the plotted value. */
  datatype Metric = Liquidity | Holders

  /** A plot sample: `x` in whole seconds, `y` the chosen metric. */
  datatype Sample = Sample(x: int, y: real)

  /**
   * The `history` property as the normaliser receives it: absent
   * (`undefined`), a value whose processing throws (a non-iterable value
   * with a non-zero `length`, or an array holding a `null` element), or an
   * array of well-formed points.
   */
  datatype HistoryInput = Absent | Malformed | Points(points: seq<HistoryPoint>)

  // ---------------------------------------------------------------------
  // Ordering by timestamp
  // ---------------------------------------------------------------------

  predicate SortedByTimestamp(s: seq<HistoryPoint>)
  {
    forall i, j :: 0 <= i < j < |s| ==> s[i].timestamp <= s[j].timestamp
  }

  /** The points of `s` whose timestamp is `t`, in their order in `s`. */
  function WithTimestamp(s: seq<HistoryPoint>, t: int): (r: seq<HistoryPoint>)
    ensures |r| <= |s|
    ensures forall p :: p in r ==> p in s && p.timestamp == t
  {
    if s == [] then []
    else (if s[0].timestamp == t then [s[0]] else []) + WithTimestamp(s[1..], t)
  }

  /**
   * Puts `p` in front of the first element whose timestamp is not smaller
   * than its own, so that `p` precedes every point it ties with.
   */
  function Insert(p: HistoryPoint, s: seq<HistoryPoint>): (r: seq<HistoryPoint>)
    ensures |r| == |s| + 1
    ensures multiset(r) == multiset(s) + multiset{p}
  {
    if s == [] || p.timestamp <= s[0].timestamp then [p] + s
    else
      assert s == [s[0]] + s[1..];
      [s[0]] + Insert(p, s[1..])
  }

  /** Inserting a point no earlier than `lo` among points no earlier than `lo`. */
  lemma InsertKeepsLowerBound(p: HistoryPoint, s: seq<HistoryPoint>, lo: int)
    requires lo <= p.timestamp
    requires forall q :: q in s ==> lo <= q.timestamp
    ensures forall q :: q in Insert(p, s) ==> lo <= q.timestamp
  {
    forall q | q in Insert(p, s) ensures lo <= q.timestamp {
      assert q in multiset(Insert(p, s));
      if q != p {
        assert q in multiset(s);
      }
    }
  }

  lemma {:induction false} InsertKeepsOrder(p: HistoryPoint, s: seq<HistoryPoint>)
    requires SortedByTimestamp(s)
    ensures SortedByTimestamp(Insert(p, s))
  {
    if s != [] && p.timestamp > s[0].timestamp {
      var rest := Insert(p, s[1..]);
      InsertKeepsOrder(p, s[1..]);
      InsertKeepsLowerBound(p, s[1..], s[0].timestamp);
      var r := [s[0]] + rest;
      forall i, j | 0 <= i < j < |r| ensures r[i].timestamp <= r[j].timestamp {
        if i == 0 {
          assert r[j] in rest;
        } else {
          assert r[i] == rest[i - 1] && r[j] == rest[j - 1];
        }
      }
    }
  }

  /**
   * Stable ascending sort by timestamp: the copy-and-sort of the history
   * (`Array.prototype.sort` with comparator `a.timestamp - b.timestamp`,
   * which is stable).
   */
  function SortByTimestamp(s: seq<HistoryPoint>): (r: seq<HistoryPoint>)
    ensures |r| == |s|
    ensures multiset(r) == multiset(s)
    ensures SortedByTimestamp(r)
  {
    if s == [] then []
    else
      assert s == [s[0]] + s[1..];
      var rest := SortByTimestamp(s[1..]);
      InsertKeepsOrder(s[0], rest);
      Insert(s[0], rest)
  }

  lemma {:induction false} InsertKeepsTies(p: HistoryPoint, s: seq<HistoryPoint>, t: int)
    ensures WithTimestamp(Insert(p, s), t)
         == (if p.timestamp == t then [p] else []) + WithTimestamp(s, t)
  {
    if s == [] || p.timestamp <= s[0].timestamp {
      assert ([p] + s)[1..] == s;
    } else {
      var rest := Insert(p, s[1..]);
      assert ([s[0]] + rest)[1..] == rest;
      InsertKeepsTies(p, s[1..], t);
      if p.timestamp == t {
        assert s[0].timestamp != t;
      }
    }
  }

  /**
   * Stability: among the points that share any one timestamp, the sort
   * keeps their original relative order.
   */
  lemma {:induction false} SortIsStable(s: seq<HistoryPoint>, t: int)
    ensures WithTimestamp(SortByTimestamp(s), t) == WithTimestamp(s, t)
  {
    if s != [] {
      SortIsStable(s[1..], t);
      InsertKeepsTies(s[0], SortByTimestamp(s[1..]), t);
    }
  }

  /** A sequence is empty exactly when no timestamp has any point. */
  lemma EmptyIffNoTies(s: seq<HistoryPoint>)
    ensures s == [] <==> forall t :: WithTimestamp(s, t) == []
  {
    if s != [] {
      assert WithTimestamp(s, s[0].timestamp) != [];
    }
  }

  lemma HeadsAgree(r1: seq<HistoryPoint>, r2: seq<HistoryPoint>)
    requires r1 != [] && r2 != []
    requires SortedByTimestamp(r1) && SortedByTimestamp(r2)
    requires WithTimestamp(r1, r1[0].timestamp) == WithTimestamp(r2, r1[0].timestamp)
    requires WithTimestamp(r1, r2[0].timestamp) == WithTimestamp(r2, r2[0].timestamp)
    ensures r1[0] == r2[0]
  {
    var t1, t2 := r1[0].timestamp, r2[0].timestamp;
    assert WithTimestamp(r1, t1)[0] == r1[0];
    assert WithTimestamp(r2, t2)[0] == r2[0];
    assert r1[0] in WithTimestamp(r2, t1);
    assert r2[0] in WithTimestamp(r1, t2);
    var i :| 0 <= i < |r2| && r2[i] == r1[0];
    var j :| 0 <= j < |r1| && r1[j] == r2[0];
    assert t1 == t2;
  }

  lemma TailsAgree(r1: seq<HistoryPoint>, r2: seq<HistoryPoint>, t: int)
    requires r1 != [] && r2 != [] && r1[0] == r2[0]
    requires WithTimestamp(r1, t) == WithTimestamp(r2, t)
    ensures WithTimestamp(r1[1..], t) == WithTimestamp(r2[1..], t)
  {
    var head := if r1[0].timestamp == t then [r1[0]] else [];
    assert WithTimestamp(r1, t) == head + WithTimestamp(r1[1..], t);
    assert WithTimestamp(r2, t) == head + WithTimestamp(r2[1..], t);
    assert WithTimestamp(r1[1..], t) == WithTimestamp(r1, t)[|head|..];
    assert WithTimestamp(r2[1..], t) == WithTimestamp(r2, t)[|head|..];
  }

  /**
   * The sorted order is the only one that is ascending and keeps the order
   * of tied points: two such orderings of the same points are equal.
   */
  lemma {:induction false} StableSortIsUnique(r1: seq<HistoryPoint>, r2: seq<HistoryPoint>)
    requires SortedByTimestamp(r1) && SortedByTimestamp(r2)
    requires forall t :: WithTimestamp(r1, t) == WithTimestamp(r2, t)
    ensures r1 == r2
    decreases |r1|
  {
    EmptyIffNoTies(r1);
    EmptyIffNoTies(r2);
    if r1 != [] && r2 != [] {
      HeadsAgree(r1, r2);
      forall t ensures WithTimestamp(r1[1..], t) == WithTimestamp(r2[1..], t) {
        TailsAgree(r1, r2, t);
      }
      StableSortIsUnique(r1[1..], r2[1..]);
      assert r1 == [r1[0]] + r1[1..] && r2 == [r2[0]] + r2[1..];
    }
  }

  /**
   * Any ascending, stable reordering of the history is exactly what
   * `SortByTimestamp` returns.
   */
  lemma SortByTimestampIsTheStableSort(s: seq<HistoryPoint>, r: seq<HistoryPoint>)
    requires SortedByTimestamp(r)
    requires forall t :: WithTimestamp(r, t) == WithTimestamp(s, t)
    ensures r == SortByTimestamp(s)
  {
    forall t ensures WithTimestamp(r, t) == WithTimestamp(SortByTimestamp(s), t) {
      SortIsStable(s, t);
    }
    StableSortIsUnique(r, SortByTimestamp(s));
  }

  // ---------------------------------------------------------------------
  // Projection to samples
  // ---------------------------------------------------------------------

  /** Whole seconds of a millisecond timestamp, rounded down (`Math.floor(t / 1000)`). */
  function Seconds(timestamp: int): (x: int)
    ensures x * 1000 <= timestamp < x * 1000 + 1000
  {
    timestamp / 1000
  }

  lemma SecondsMonotone(t1: int, t2: int)
    requires t1 <= t2
    ensures Seconds(t1) <= Seconds(t2)
  {
  }

  /** The plotted value of a point: its liquidity or its holder count. */
  function MetricValue(p: HistoryPoint, metric: Metric): (y: real)
    ensures metric == Liquidity ==> y == p.totalLiquidity
    ensures metric == Holders ==> y == p.holderCount as real
  {
    if metric == Liquidity then p.totalLiquidity else p.holderCount as real
  }

  /** The sample plotted for one history point. */
  function ToSample(p: HistoryPoint, metric: Metric): Sample
  {
    Sample(Seconds(p.timestamp), MetricValue(p, metric))
  }

  /** Projects every point, keeping the order (`sortedData.map(...)`). */
  function Project(s: seq<HistoryPoint>, metric: Metric): (r: seq<Sample>)
    ensures |r| == |s|
    ensures forall i :: 0 <= i < |s| ==> r[i] == ToSample(s[i], metric)
  {
    seq(|s|, i requires 0 <= i < |s| => ToSample(s[i], metric))
  }

  predicate NonDecreasingX(r: seq<Sample>)
  {
    forall i, j :: 0 <= i < j < |r| ==> r[i].x <= r[j].x
  }

  /**
   * The normaliser: an absent, empty or malformed history gives no samples;
   * otherwise the points, stably sorted by timestamp, each projected to
   * (seconds, metric value). The history itself is a value and is not changed.
   */
  function Normalize(history: HistoryInput, metric: Metric): (r: seq<Sample>)
    ensures !history.Points? ==> r == []
    ensures history.Points? ==> |r| == |history.points|
    ensures history.Points? ==> forall i :: 0 <= i < |r| ==>
              r[i] == ToSample(SortByTimestamp(history.points)[i], metric)
    ensures NonDecreasingX(r)
  {
    match history
    case Absent => []
    case Malformed => []
    case Points(points) =>
      if |points| == 0 then []
      else
        var sorted := SortByTimestamp(points);
        var r := Project(sorted, metric);
        assert forall i, j :: 0 <= i < j < |r| ==> r[i].x <= r[j].x by {
          forall i, j | 0 <= i < j < |r| ensures r[i].x <= r[j].x {
            SecondsMonotone(sorted[i].timestamp, sorted[j].timestamp);
          }
        }
        r
  }

  /**
   * The samples are a reordering of the input's projected points: every
   * point contributes exactly one sample and no sample is invented.
   */
  lemma NormalizePermutesPoints(points: seq<HistoryPoint>, metric: Metric)
    ensures multiset(Normalize(Points(points), metric)) == multiset(Project(points, metric))
  {
    SortProjectsToSameSamples(points, metric);
  }

  lemma ProjectCons(p: HistoryPoint, s: seq<HistoryPoint>, metric: Metric)
    ensures Project([p] + s, metric) == [ToSample(p, metric)] + Project(s, metric)
  {
  }

  lemma {:induction false} SortProjectsToSameSamples(s: seq<HistoryPoint>, metric: Metric)
    ensures multiset(Project(SortByTimestamp(s), metric)) == multiset(Project(s, metric))
  {
    if s != [] {
      var rest := SortByTimestamp(s[1..]);
      SortProjectsToSameSamples(s[1..], metric);
      InsertProjectsOneSample(s[0], rest, metric);
      assert SortByTimestamp(s) == Insert(s[0], rest);
      assert s == [s[0]] + s[1..];
      ProjectCons(s[0], s[1..], metric);
    }
  }

  lemma {:induction false} InsertProjectsOneSample(p: HistoryPoint, s: seq<HistoryPoint>, metric: Metric)
    ensures multiset(Project(Insert(p, s), metric))
         == multiset(Project(s, metric)) + multiset{ToSample(p, metric)}
  {
    if s == [] || p.timestamp <= s[0].timestamp {
      assert Insert(p, s) == [p] + s;
      ProjectCons(p, s, metric);
    } else {
      var rest := Insert(p, s[1..]);
      InsertProjectsOneSample(p, s[1..], metric);
      assert Insert(p, s) == [s[0]] + rest;
      ProjectCons(s[0], rest, metric);
      assert s == [s[0]] + s[1..];
      ProjectCons(s[0], s[1..], metric);
    }
  }

  lemma OutOfOrderSort(p1: HistoryPoint, p2: HistoryPoint, p3: HistoryPoint)
    requires p1.timestamp < p2.timestamp < p3.timestamp
    ensures SortByTimestamp([p1, p3, p2]) == [p1, p2, p3]
  {
    assert [p1, p3, p2][1..] == [p3, p2] && [p3, p2][1..] == [p2] && [p2][1..] == [];
    assert SortByTimestamp([p2]) == [p2];
    assert SortByTimestamp([p3, p2]) == [p2, p3];
  }

  /**
   * Three liquidity snapshots received out of order are plotted in time
   * order, one per second.
   */
  lemma OutOfOrderHistoryExample()
    ensures Normalize(Points([HistoryPoint(1000, 100.0, 0), HistoryPoint(3000, 200.0, 0),
                              HistoryPoint(2000, 150.0, 0)]), Liquidity)
         == [Sample(1, 100.0), Sample(2, 150.0), Sample(3, 200.0)]
  {
    var p1, p2, p3 := HistoryPoint(1000, 100.0, 0), HistoryPoint(2000, 150.0, 0), HistoryPoint(3000, 200.0, 0);
    OutOfOrderSort(p1, p2, p3);
    var r := Normalize(Points([p1, p3, p2]), Liquidity);
    assert r[0] == Sample(1, 100.0) && r[1] == Sample(2, 150.0) && r[2] == Sample(3, 200.0);
  }
}
