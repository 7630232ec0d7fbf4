/**
 * The mini-chart's drawing-surface lifecycle (`createOrUpdateChart`, the
 * ResizeObserver callback and the cleanup registered in `onMount`, in
 * MiniChart.tsx). The chart library is reduced to an abstract surface that
 * keeps its data and y-axis bounds, can be destroyed and counts the resize
 * requests it receives; DOM lookups are boolean inputs.
 */
module ChartLifecycle {
  import opened Wrappers
  import opened ChartData
  import Trend

  /** The smallest value of a non-empty series (`Math.min(...ys)`). */
  function MinY(ys: seq<real>): (m: real)
    requires |ys| > 0
    ensures m in ys
    ensures forall i :: 0 <= i < |ys| ==> m <= ys[i]
  {
    if |ys| == 1 then ys[0]
    else
      var rest := MinY(ys[1..]);
      if ys[0] <= rest then ys[0] else rest
  }

  /** The largest value of a non-empty series (`Math.max(...ys)`). */
  function MaxY(ys: seq<real>): (m: real)
    requires |ys| > 0
    ensures m in ys
    ensures forall i :: 0 <= i < |ys| ==> ys[i] <= m
  {
    if |ys| == 1 then ys[0]
    else
      var rest := MaxY(ys[1..]);
      if ys[0] >= rest then ys[0] else rest
  }

  /** Lower y-axis bound of a new chart: 95% of the smallest value. */
  function LowerBound(data: seq<Sample>): real
    requires |data| > 0
  {
    MinY(Trend.Values(data)) * 0.95
  }

  /** Upper y-axis bound of a new chart: 105% of the largest value. */
  function UpperBound(data: seq<Sample>): real
    requires |data| > 0
  {
    MaxY(Trend.Values(data)) * 1.05
  }

  /**
   * For non-negative values (liquidity, holder counts) the axis bounds
   * enclose every plotted value.
   */
  lemma BoundsEncloseNonNegative(data: seq<Sample>)
    requires |data| > 0
    requires forall i :: 0 <= i < |data| ==> data[i].y >= 0.0
    ensures forall i :: 0 <= i < |data| ==> LowerBound(data) <= data[i].y <= UpperBound(data)
  {
    var ys := Trend.Values(data);
    var lo, hi := MinY(ys), MaxY(ys);
    assert lo >= 0.0 by {
      var k :| 0 <= k < |ys| && ys[k] == lo;
    }
    assert hi >= 0.0 by {
      var k :| 0 <= k < |ys| && ys[k] == hi;
    }
    forall i | 0 <= i < |data| ensures LowerBound(data) <= data[i].y <= UpperBound(data) {
      assert lo <= ys[i] <= hi;
    }
  }

  /** With a negative value the 5% margins point the wrong way: the upper bound falls below it. */
  lemma BoundsMissNegative()
    ensures UpperBound([Sample(0, -1.0)]) < -1.0
    ensures LowerBound([Sample(0, -1.0)]) > -1.0
  {
    assert Trend.Values([Sample(0, -1.0)]) == [-1.0];
  }

  /** A chart instance: its dataset and y bounds are fixed when it is built. */
  class Surface {
    const data: seq<Sample>
    const yMin: real
    const yMax: real
    var destroyed: bool
    var resizes: nat

    constructor (data: seq<Sample>, yMin: real, yMax: real)
      ensures this.data == data && this.yMin == yMin && this.yMax == yMax
      ensures !destroyed && resizes == 0
    {
      this.data, this.yMin, this.yMax := data, yMin, yMax;
      destroyed, resizes := false, 0;
    }

    /** Releases the drawing context (`chart.destroy()`). */
    method Destroy()
      modifies this`destroyed
      ensures destroyed
    {
      destroyed := true;
    }

    /** Recomputes the pixel size (`chart.resize()`); data and bounds are untouched. */
    method Resize()
      modifies this`resizes
      ensures resizes == old(resizes) + 1
    {
      resizes := resizes + 1;
    }
  }

  /**
   * One mounted mini-chart: the closure variable `chart` and whether the
   * resize observer is connected. `surfaces` records every chart this host
   * has created, so that "at most one chart is alive" can be stated.
   */
  class ChartHost {
    var chart: Option<Surface>
    var subscribed: bool
    ghost var surfaces: set<Surface>

    /** Every chart the host created, other than the one it holds, is destroyed. */
    ghost predicate Valid()
      reads this, surfaces
    {
      && (chart.Some? ==> chart.value in surfaces)
      && forall s :: s in surfaces && chart != Some(s) ==> s.destroyed
    }

    ghost predicate AtMostOneLive()
      reads this, surfaces
    {
      forall s, t :: s in surfaces && t in surfaces && !s.destroyed && !t.destroyed ==> s == t
    }

    ghost predicate NoneLive()
      reads this, surfaces
    {
      forall s :: s in surfaces ==> s.destroyed
    }

    /** At most one chart is alive whenever the host is valid. */
    lemma ValidKeepsOneLive()
      requires Valid()
      ensures AtMostOneLive()
    {
    }

    constructor ()
      ensures Valid() && chart == None && !subscribed && surfaces == {}
    {
      chart, subscribed := None, false;
      surfaces := {};
    }

    /**
     * `createOrUpdateChart`: does nothing when the container, its canvas or
     * the canvas's 2D context is missing or the normalised data is empty;
     * otherwise destroys the current chart, if any, and then builds a new
     * one over the data with y bounds 0.95 * min and 1.05 * max.
     * `constructs` is false when the chart library throws while building;
     * `chart` then still refers to the chart just destroyed.
     */
    method Build(hasContainer: bool, hasCanvas: bool, hasContext: bool,
                 history: HistoryInput, metric: Metric, constructs: bool)
      requires Valid()
      modifies this, surfaces
      ensures Valid() && AtMostOneLive()
      ensures subscribed == old(subscribed)
      ensures forall s :: s in old(surfaces) ==> s.resizes == old(s.resizes)
      ensures !hasContainer || !hasCanvas || !hasContext || Normalize(history, metric) == [] ==>
                chart == old(chart) && surfaces == old(surfaces)
                && forall s :: s in surfaces ==> s.destroyed == old(s.destroyed)
      ensures hasContainer && hasCanvas && hasContext && Normalize(history, metric) != [] ==>
                (old(chart).Some? ==> old(chart).value.destroyed)
                && forall s :: s in old(surfaces) && Some(s) != old(chart) ==> s.destroyed == old(s.destroyed)
      ensures hasContainer && hasCanvas && hasContext && Normalize(history, metric) != [] && constructs ==>
                && chart.Some? && fresh(chart.value) && !chart.value.destroyed && chart.value.resizes == 0
                && chart.value.data == Normalize(history, metric)
                && chart.value.yMin == LowerBound(Normalize(history, metric))
                && chart.value.yMax == UpperBound(Normalize(history, metric))
                && surfaces == old(surfaces) + {chart.value}
      ensures hasContainer && hasCanvas && hasContext && Normalize(history, metric) != [] && !constructs ==>
                chart == old(chart) && surfaces == old(surfaces)
    {
      if !hasContainer || !hasCanvas || !hasContext {
        ValidKeepsOneLive();
        return;
      }
      var data := Normalize(history, metric);
      if |data| == 0 {
        ValidKeepsOneLive();
        return;
      }
      Replace(data, constructs);
    }

    /**
     * The part of `createOrUpdateChart` past its early returns: destroys the
     * current chart, if any, then builds one over `data` unless the chart
     * library throws.
     */
    method Replace(data: seq<Sample>, constructs: bool)
      requires Valid() && |data| > 0
      modifies this, surfaces
      ensures Valid() && AtMostOneLive()
      ensures subscribed == old(subscribed)
      ensures forall s :: s in old(surfaces) ==> s.resizes == old(s.resizes)
      ensures old(chart).Some? ==> old(chart).value.destroyed
      ensures forall s :: s in old(surfaces) && Some(s) != old(chart) ==> s.destroyed == old(s.destroyed)
      ensures constructs ==>
                && chart.Some? && fresh(chart.value) && !chart.value.destroyed && chart.value.resizes == 0
                && chart.value.data == data
                && chart.value.yMin == LowerBound(data) && chart.value.yMax == UpperBound(data)
                && surfaces == old(surfaces) + {chart.value}
      ensures !constructs ==> chart == old(chart) && surfaces == old(surfaces)
    {
      if chart.Some? {
        chart.value.Destroy();
      }
      if constructs {
        var s := new Surface(data, LowerBound(data), UpperBound(data));
        chart := Some(s);
        surfaces := surfaces + {s};
      }
      ValidKeepsOneLive();
    }

    /** The resize observer's callback: resizes the current chart, if any. */
    method OnResize()
      requires Valid()
      modifies surfaces
      ensures Valid() && AtMostOneLive()
      ensures chart.Some? ==> chart.value.resizes == old(chart.value.resizes) + 1
      ensures forall s :: s in surfaces && Some(s) != chart ==> s.resizes == old(s.resizes)
      ensures forall s :: s in surfaces ==> s.destroyed == old(s.destroyed)
    {
      if chart.Some? {
        chart.value.Resize();
      }
    }

    /** A container size change: delivered to the callback only while subscribed. */
    method SizeChanged()
      requires Valid()
      modifies surfaces
      ensures Valid() && AtMostOneLive()
      ensures subscribed && chart.Some? ==> chart.value.resizes == old(chart.value.resizes) + 1
      ensures forall s :: s in surfaces && (!subscribed || Some(s) != chart) ==> s.resizes == old(s.resizes)
      ensures forall s :: s in surfaces ==> s.destroyed == old(s.destroyed)
    {
      if subscribed {
        OnResize();
      }
    }

    /**
     * `onMount`: builds the chart, then connects the resize observer when
     * the container exists.
     */
    method Mount(hasContainer: bool, hasCanvas: bool, hasContext: bool,
                 history: HistoryInput, metric: Metric, constructs: bool)
      requires Valid() && chart == None && !subscribed
      modifies this, surfaces
      ensures Valid() && AtMostOneLive()
      ensures subscribed == hasContainer
      ensures chart.Some? <==> hasContainer && hasCanvas && hasContext && Normalize(history, metric) != [] && constructs
      ensures chart.Some? ==> && fresh(chart.value) && !chart.value.destroyed && chart.value.resizes == 0
                              && chart.value.data == Normalize(history, metric)
                              && chart.value.yMin == LowerBound(Normalize(history, metric))
                              && chart.value.yMax == UpperBound(Normalize(history, metric))
                              && surfaces == old(surfaces) + {chart.value}
      ensures chart.None? ==> surfaces == old(surfaces)
    {
      Build(hasContainer, hasCanvas, hasContext, history, metric, constructs);
      subscribed := hasContainer;
    }

    /**
     * The cleanup registered in `onMount`: disconnects the observer and
     * destroys the current chart; `chart` keeps referring to it.
     */
    method Cleanup()
      requires Valid()
      modifies this, surfaces
      ensures Valid() && NoneLive()
      ensures !subscribed && chart == old(chart) && surfaces == old(surfaces)
      ensures forall s :: s in surfaces ==> s.resizes == old(s.resizes)
    {
      subscribed := false;
      if chart.Some? {
        chart.value.Destroy();
      }
    }
  }

  /**
   * A full lifetime: mount over non-empty data, a size change, cleanup, and a
   * late size change that is no longer delivered.
   */
  method LifecycleExample(p: HistoryPoint)
  {
    var host := new ChartHost();
    host.Mount(true, true, true, Points([p]), Liquidity, true);
    assert host.chart.Some?;
    var s := host.chart.value;
    host.SizeChanged();
    assert s.resizes == 1;
    host.Cleanup();
    assert s.destroyed && !host.subscribed;
    host.SizeChanged();
    assert s.resizes == 1;
  }

  /**
   * Successive builds: an empty series leaves the current chart alive, a new
   * series replaces it, and a build whose construction throws leaves `chart`
   * on the chart it has just destroyed, with no chart alive. The component
   * itself builds only once, from `onMount`; these paths are those of
   * `createOrUpdateChart` as written, for a host that calls it again.
   */
  method RebuildExample(p: HistoryPoint, q: HistoryPoint)
  {
    var host := new ChartHost();
    host.Build(true, true, true, Points([p]), Liquidity, true);
    var first := host.chart.value;
    host.Build(true, true, true, Points([]), Liquidity, true);
    assert host.chart == Some(first) && !first.destroyed;
    host.Build(true, true, true, Points([q]), Holders, true);
    var second := host.chart.value;
    assert first.destroyed && !second.destroyed && second != first;
    host.Build(true, true, true, Points([p]), Liquidity, false);
    assert host.chart == Some(second) && second.destroyed && host.NoneLive();
  }
}
