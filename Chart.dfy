/** The chart panel: which of the three series are shown, whether they are
    drawn as lines or bars, and the three totals shown above the chart. */
module Chart {
  import opened Wrappers

  datatype Series = OrderSum | Volume | Sales

  datatype ChartType = Line | Bar

  /** The `visibleLines` state: one flag per series. */
  datatype Visibility = Visibility(orderSum: bool, volume: bool, sales: bool)

  /** `visibleLines[key]`. */
  function Flag(v: Visibility, k: Series): bool {
    match k
    case OrderSum => v.orderSum
    case Volume => v.volume
    case Sales => v.sales
  }

  /** `{ ...prev, [key]: !prev[key] }`: flag `k` negated, the other two kept. */
  function Toggle(v: Visibility, k: Series): (w: Visibility)
    ensures Flag(w, k) == !Flag(v, k)
    ensures forall j :: j != k ==> Flag(w, j) == Flag(v, j)
  {
    match k
    case OrderSum => v.(orderSum := !v.orderSum)
    case Volume => v.(volume := !v.volume)
    case Sales => v.(sales := !v.sales)
  }

  /** Toggling the same series twice restores the state. */
  lemma ToggleTwice(v: Visibility, k: Series)
    ensures Toggle(Toggle(v, k), k) == v
  {
    var w := Toggle(Toggle(v, k), k);
    assert forall j :: Flag(w, j) == Flag(v, j);
    assert Flag(w, OrderSum) == v.orderSum && Flag(w, Volume) == v.volume && Flag(w, Sales) == v.sales;
  }

  /** Toggles of two series commute. */
  lemma ToggleCommutes(v: Visibility, j: Series, k: Series)
    ensures Toggle(Toggle(v, j), k) == Toggle(Toggle(v, k), j)
  {
    var a := Toggle(Toggle(v, j), k);
    var b := Toggle(Toggle(v, k), j);
    assert forall s :: Flag(a, s) == Flag(b, s);
    assert Flag(a, OrderSum) == Flag(b, OrderSum) && Flag(a, Volume) == Flag(b, Volume)
           && Flag(a, Sales) == Flag(b, Sales);
  }

  /** The chart container the chart type selects. */
  datatype Component = LineChart | BarChart

  /** `chartType === 'line' ? LineChart : BarChart`. */
  function ChartComponent(t: ChartType): (c: Component)
    ensures c == LineChart <==> t == Line
    ensures c == BarChart <==> t == Bar
  {
    match t
    case Line => LineChart
    case Bar => BarChart
  }

  /** A drawn series: a `<Line>` or a `<Bar>` element for one data key. */
  datatype Element = LineOf(series: Series) | BarOf(series: Series)

  function SeriesElement(t: ChartType, k: Series): (e: Element)
    ensures e.series == k && (e.LineOf? <==> t == Line)
  {
    if t == Line then LineOf(k) else BarOf(k)
  }

  /** The children drawn inside the chart: for each series in the order
      order sum, volume, sales, one element of the chart type's kind when
      that series is visible. */
  function Rendered(v: Visibility, t: ChartType): (es: seq<Element>)
    ensures forall k :: SeriesElement(t, k) in es <==> Flag(v, k)
    ensures forall e :: e in es ==> e == SeriesElement(t, e.series)
    ensures forall i, j :: 0 <= i < j < |es| ==> es[i].series != es[j].series
  {
    (if v.orderSum then [SeriesElement(t, OrderSum)] else [])
    + (if v.volume then [SeriesElement(t, Volume)] else [])
    + (if v.sales then [SeriesElement(t, Sales)] else [])
  }

  /** The component state of the chart panel. */
  class ChartState {
    var chartType: ChartType
    var visibleLines: Visibility

    /** Initially a line chart with every series visible. */
    constructor()
      ensures chartType == Line
      ensures forall k :: Flag(visibleLines, k)
    {
      chartType := Line;
      visibleLines := Visibility(true, true, true);
    }

    /** `toggleLine(key)`. */
    method ToggleLine(k: Series)
      modifies this
      ensures visibleLines == Toggle(old(visibleLines), k)
      ensures chartType == old(chartType)
    {
      visibleLines := Toggle(visibleLines, k);
    }

    /** `setChartType(t)`, from the two mode buttons. */
    method SetChartType(t: ChartType)
      modifies this
      ensures chartType == t
      ensures visibleLines == old(visibleLines)
    {
      chartType := t;
    }

    /** The series elements this state draws. */
    function Children(): (es: seq<Element>)
      reads this
      ensures forall k :: SeriesElement(chartType, k) in es <==> Flag(visibleLines, k)
    {
      Rendered(visibleLines, chartType)
    }
  }

  /** Clicking a series checkbox twice leaves the panel as it was. */
  method ToggleLineTwice(c: ChartState, k: Series)
    modifies c
    ensures c.visibleLines == old(c.visibleLines) && c.chartType == old(c.chartType)
  {
    c.ToggleLine(k);
    c.ToggleLine(k);
    ToggleTwice(old(c.visibleLines), k);
  }

  /** Pressing a mode button twice is pressing it once. */
  method SetChartTypeTwice(c: ChartState, t: ChartType)
    modifies c
    ensures c.chartType == t && c.visibleLines == old(c.visibleLines)
  {
    c.SetChartType(t);
    c.SetChartType(t);
  }

  /** One record as the chart receives it: a numeric field may be absent. */
  datatype ChartData = ChartData(
    date: string,
    orderSum: Option<real>,
    volume: Option<real>,
    sales: Option<real>)

  /** `item[field]`. */
  function Field(r: ChartData, k: Series): Option<real> {
    match k
    case OrderSum => r.orderSum
    case Volume => r.volume
    case Sales => r.sales
  }

  /** `item[field] || 0`. */
  function Amount(r: ChartData, k: Series): (a: real)
    ensures Field(r, k) == Some(a) || (Field(r, k).None? && a == 0.0)
  {
    match Field(r, k)
    case None => 0.0
    case Some(x) => x
  }

  /** `data.reduce((sum, item) => sum + (item[field] || 0), acc)`: a left
      fold from `acc`. */
  function Reduce(acc: real, data: seq<ChartData>, k: Series): (t: real)
    ensures (forall i :: 0 <= i < |data| ==> Amount(data[i], k) >= 0.0) ==> t >= acc
    decreases |data|
  {
    if |data| == 0 then acc else Reduce(acc + Amount(data[0], k), data[1..], k)
  }

  /** The total of one series, as shown above the chart: the sum of its
      amounts over the records, 0 for no records. */
  function Total(data: seq<ChartData>, k: Series): (t: real)
    ensures t == Sum(data, k)
    ensures |data| == 0 ==> t == 0.0
  {
    ReduceIsSum(0.0, data, k);
    Reduce(0.0, data, k)
  }

  /** The sum of the amounts, element by element. */
  function Sum(data: seq<ChartData>, k: Series): real
    decreases |data|
  {
    if |data| == 0 then 0.0 else Amount(data[0], k) + Sum(data[1..], k)
  }

  /** Folding from `acc` adds `acc` to the sum. */
  lemma {:induction false} ReduceIsSum(acc: real, data: seq<ChartData>, k: Series)
    ensures Reduce(acc, data, k) == acc + Sum(data, k)
    decreases |data|
  {
    if |data| > 0 {
      ReduceIsSum(acc + Amount(data[0], k), data[1..], k);
    }
  }

  /** The sum over a concatenation is the sum of the two sums. */
  lemma {:induction false} SumAppend(xs: seq<ChartData>, ys: seq<ChartData>, k: Series)
    ensures Sum(xs + ys, k) == Sum(xs, k) + Sum(ys, k)
    decreases |xs|
  {
    if |xs| == 0 {
      assert xs + ys == ys;
    } else {
      assert (xs + ys)[1..] == xs[1..] + ys;
      SumAppend(xs[1..], ys, k);
    }
  }

  /** Appending a record adds its amount, with a missing field as 0. */
  lemma TotalSnoc(xs: seq<ChartData>, r: ChartData, k: Series)
    ensures Total(xs + [r], k) == Total(xs, k) + Amount(r, k)
    ensures Field(r, k).None? ==> Total(xs + [r], k) == Total(xs, k)
  {
    SumAppend(xs, [r], k);
    assert Sum([r], k) == Amount(r, k) + Sum([r][1..], k);
  }

  /** The total of two runs of records is the sum of their totals. */
  lemma TotalAppend(xs: seq<ChartData>, ys: seq<ChartData>, k: Series)
    ensures Total(xs + ys, k) == Total(xs, k) + Total(ys, k)
  {
    SumAppend(xs, ys, k);
  }

  /** No negative amounts, no negative total: the fold from 0 never drops
      below its start. */
  lemma TotalNonNegative(data: seq<ChartData>, k: Series)
    requires forall i :: 0 <= i < |data| ==> Amount(data[i], k) >= 0.0
    ensures Total(data, k) >= 0.0
  {
    assert Total(data, k) == Reduce(0.0, data, k);
  }
}
