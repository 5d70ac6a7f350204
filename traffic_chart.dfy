/**
 * The bar chart of daily views and visitors: the scale (`maxValue`), the
 * five y-axis labels, the window of the last fourteen days that gets a
 * bar, and the hovered bar.
 */
module TrafficChart {
  import opened Wrappers
  import opened JsBuiltins

  datatype ChartData = ChartData(date: string, views: nat, visitors: nat)

  /** `Math.max(...data.map(d => Math.max(d.views, d.visitors)), 1)`. */
  function MaxValue(data: seq<ChartData>): (m: nat)
    ensures m >= 1
    ensures forall i :: 0 <= i < |data| ==> data[i].views <= m && data[i].visitors <= m
    ensures m == 1 || exists i :: 0 <= i < |data| && (data[i].views == m || data[i].visitors == m)
  {
    if data == [] then 1
    else
      var rest := MaxValue(data[1..]);
      var here := Max(data[0].views, data[0].visitors);
      if here >= rest then here
      else
        assert rest != 1 ==> exists i :: 1 <= i < |data| && (data[i].views == rest || data[i].visitors == rest) by {
          if rest != 1 {
            var j :| 0 <= j < |data[1..]| && (data[1..][j].views == rest || data[1..][j].visitors == rest);
            assert data[j + 1] == data[1..][j];
          }
        }
        rest
  }

  const YAxisSteps: nat := 5

  /** `Math.ceil(maxValue / (yAxisSteps - 1))`: the least step whose four multiples reach `m`. */
  function StepValue(m: nat): (s: nat)
    ensures 4 * s >= m
    ensures s > 0 ==> 4 * (s - 1) < m
  {
    (m + 3) / 4
  }

  /** `stepValue * (yAxisSteps - 1 - i)` for i in 0..4. */
  function YAxisLabels(m: nat): (labels: seq<nat>)
    ensures |labels| == YAxisSteps
  {
    var s := StepValue(m);
    seq(YAxisSteps, i requires 0 <= i < YAxisSteps => s * (YAxisSteps - 1 - i))
  }

  /**
   * For a scale of at least 1 the labels are `[4s, 3s, 2s, s, 0]`: strictly
   * descending, ending at 0, evenly spaced, with the top label reaching the scale.
   */
  lemma {:induction false} AxisLabels(m: nat)
    requires m >= 1
    ensures var labels := YAxisLabels(m);
      var s := StepValue(m);
      labels == [4 * s, 3 * s, 2 * s, s, 0] &&
      (forall i, j :: 0 <= i < j < |labels| ==> labels[i] > labels[j]) &&
      labels[4] == 0 && labels[0] >= m
  {
    var s := StepValue(m);
    assert s >= 1;
    var labels := YAxisLabels(m);
    assert labels[0] == 4 * s && labels[1] == 3 * s && labels[2] == 2 * s && labels[3] == s && labels[4] == 0;
  }

  /** Every value drawn lies under the top axis label. */
  lemma ChartFitsAxis(data: seq<ChartData>)
    ensures var top := YAxisLabels(MaxValue(data))[0];
      forall i :: 0 <= i < |data| ==> data[i].views <= top && data[i].visitors <= top
  {
    AxisLabels(MaxValue(data));
  }

  const BarDays: nat := 14

  /** `data.slice(-14)`: the last fourteen entries, or all of them when there are fewer. */
  function BarWindow(data: seq<ChartData>): (w: seq<ChartData>)
    ensures |w| == Min(BarDays, |data|)
    ensures w == data[|data| - |w|..]
  {
    SliceFrom(data, -(BarDays as int))
  }

  /** What the component renders: a placeholder, or the axis labels and the bars. */
  datatype Rendering = Placeholder | Chart(maxValue: nat, labels: seq<nat>, bars: seq<ChartData>)

  function Render(data: Option<seq<ChartData>>): (r: Rendering)
    ensures r.Placeholder? <==> data.None? || data.value == []
    ensures r.Chart? ==> r.maxValue == MaxValue(data.value) && r.labels == YAxisLabels(r.maxValue)
    ensures r.Chart? ==> r.bars == BarWindow(data.value) && 0 < |r.bars| <= BarDays
  {
    if data.None? || data.value == [] then Placeholder
    else
      var m := MaxValue(data.value);
      Chart(m, YAxisLabels(m), BarWindow(data.value))
  }

  /** The chart with its hover state; `data` is the prop, `hoveredIndex` the state. */
  class TrafficChartView {
    var data: seq<ChartData>
    var hoveredIndex: Option<nat>

    /** The hovered index, if any, names a drawn bar. */
    predicate HoverInWindow()
      reads this
    {
      hoveredIndex.None? || hoveredIndex.value < |BarWindow(data)|
    }

    /** Whether bar `index` of the window is drawn highlighted (`isHovered`). */
    function IsHovered(index: nat): bool
      reads this
    {
      hoveredIndex == Some(index)
    }

    constructor (data: seq<ChartData>)
      ensures this.data == data && hoveredIndex == None
      ensures HoverInWindow()
    {
      this.data := data;
      hoveredIndex := None;
    }

    /** `onMouseEnter` of bar `index`; only drawn bars have the handler. */
    method MouseEnter(index: nat)
      requires index < |BarWindow(data)|
      modifies this
      ensures hoveredIndex == Some(index) && data == old(data)
      ensures HoverInWindow()
      ensures forall i :: 0 <= i < |BarWindow(data)| ==> (IsHovered(i) <==> i == index)
    {
      hoveredIndex := Some(index);
    }

    /** `onMouseLeave`. */
    method MouseLeave()
      modifies this
      ensures hoveredIndex == None && data == old(data)
      ensures HoverInWindow()
    {
      hoveredIndex := None;
    }

    /** A re-render with new data keeps the hover state. */
    method Rerender(newData: seq<ChartData>)
      modifies this
      ensures data == newData && hoveredIndex == old(hoveredIndex)
      ensures old(HoverInWindow()) && |BarWindow(newData)| >= |BarWindow(old(data))| ==> HoverInWindow()
    {
      data := newData;
    }
  }
}
