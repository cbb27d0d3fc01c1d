/** The config-driven plot builder. It holds the current table and the
    figure, and `build` runs a fixed pipeline over them: derive the columns
    the axes and the filters need, filter, group by the last field, sort,
    make the figure, and format it. Plotly is not modelled: a figure is a
    record of what the builder hands to it and sets on it. The core package,
    the dashboard file and the graph engine carry the same builder; they
    differ only in the label function they call (`gen`). */
module CorePlotBuilder {
  import opened Wrappers
  import opened Values
  import opened Dicts
  import opened Tables
  import opened Enums
  import opened CoreModels
  import Grouping
  import Sorting

  // ---------------------------------------------------------------------
  // The figure record

  /** The y values of a trace: the table column of the chart's own trace, or
      a rolling mean, of which only the defined positions are recorded. */
  datatype Series = Data(values: seq<Value>) | Rolling(window: int, defined: seq<bool>)

  function Size(s: Series): nat {
    match s
    case Data(vs) => |vs|
    case Rolling(_, d) => |d|
  }

  datatype Trace = Trace(
    name: string, x: seq<Value>, y: Series, text: seq<Value>,
    mode: Option<string>, dash: Option<string>, showLegend: Option<bool>,
    textPosition: Option<string>, textSize: Option<int>)

  datatype AxisLayout = AxisLayout(title: Option<string>, dtick: Option<int>, log: bool)

  datatype Figure = Figure(kind: Plot, title: string, labels: Dict<Field, Option<string>>,
                           xaxis: AxisLayout, yaxis: AxisLayout, traces: seq<Trace>)

  /** The axis title a chart gives a column: its label when it has one, else
      the column name. */
  function AxisTitle(labels: Dict<Field, Option<string>>, f: Field): Option<string> {
    match Get(labels, f)
    case Some(l) => l
    case None => Some(FieldValue(f))
  }

  /** `plot_type(df, x=..., y=..., title=..., labels=..., log_x=..., log_y=...,
      text=...)`: every bound field must name a column; the chart has one
      trace over the x and y columns. */
  function PlotFigure(kind: Plot, t: Table, x: Field, y: Field, title: string,
                      labels: Dict<Field, Option<string>>, logX: bool, logY: bool, text: Option<Field>)
    : (r: Result<Figure>)
    ensures r.Ok? <==> FieldValue(x) in t.columns && FieldValue(y) in t.columns &&
                       (text.Some? ==> FieldValue(text.value) in t.columns)
    ensures r.Ok? ==> r.value.kind == kind && r.value.title == title && r.value.labels == labels
    ensures r.Ok? ==> r.value.xaxis == AxisLayout(AxisTitle(labels, x), None, logX) &&
                      r.value.yaxis == AxisLayout(AxisTitle(labels, y), None, logY)
    ensures r.Ok? ==> |r.value.traces| == 1 && r.value.traces[0].x == Column(t, FieldValue(x)) &&
                      r.value.traces[0].y == Data(Column(t, FieldValue(y))) &&
                      r.value.traces[0].text == (if text.Some? then Column(t, FieldValue(text.value)) else [])
  {
    if FieldValue(x) !in t.columns then Err(ValueError("Value of 'x' is not the name of a column in 'data_frame'"))
    else if FieldValue(y) !in t.columns then Err(ValueError("Value of 'y' is not the name of a column in 'data_frame'"))
    else if text.Some? && FieldValue(text.value) !in t.columns then
      Err(ValueError("Value of 'text' is not the name of a column in 'data_frame'"))
    else
      var texts := if text.Some? then Column(t, FieldValue(text.value)) else [];
      var trace := Trace("", Column(t, FieldValue(x)), Data(Column(t, FieldValue(y))), texts,
                         None, None, Some(false), None, None);
      Ok(Figure(kind, title, labels, AxisLayout(AxisTitle(labels, x), None, logX),
                AxisLayout(AxisTitle(labels, y), None, logY), [trace]))
  }

  // ---------------------------------------------------------------------
  // Grouping and sorting

  function FieldNames(fs: seq<Field>): (r: seq<string>)
    ensures |r| == |fs| && forall k :: 0 <= k < |fs| ==> r[k] == FieldValue(fs[k])
  {
    seq(|fs|, k requires 0 <= k < |fs| => FieldValue(fs[k]))
  }

  /** The aggregation dict as column names and reductions. */
  function AggSpec(aggs: Aggregations): (r: Dict<string, Grouping.Agg>)
    ensures DistinctKeys(r) && Keys(r) == FieldNames(Keys(aggs))
    ensures forall j :: 0 <= j < |aggs| ==> r[j] == (FieldValue(aggs[j].0), Reduction(aggs[j].1))
  {
    var r := seq(|aggs|, j requires 0 <= j < |aggs| => (FieldValue(aggs[j].0), Reduction(aggs[j].1)));
    forall i, j | 0 <= i < j < |r| ensures r[i].0 != r[j].0 {
      FieldOfValue(aggs[i].0);
      FieldOfValue(aggs[j].0);
    }
    r
  }

  /** `groupby`: `*rest, key = fields`, then
      `df.groupby(key)[rest].agg(aggregations).reset_index()`. Selecting a
      column the table lacks, or aggregating one outside `rest`, is a
      KeyError; an empty aggregation dict has nothing to concatenate. */
  function GroupTable(t: Table, axis: AxisConfig): (r: Result<Table>)
    ensures |axis.fields| == 0 ==> r == Err(UnpackError)
    ensures r.Ok? ==> |axis.fields| > 0 && |axis.aggregations| > 0
    ensures r.Ok? ==> forall f :: HasKey(axis.aggregations, f) ==> f in axis.fields[..|axis.fields| - 1]
    ensures r.Ok? ==>
      r == Grouping.GroupBy(t, FieldValue(axis.fields[|axis.fields| - 1]), AggSpec(axis.aggregations))
  {
    if |axis.fields| == 0 then Err(UnpackError)
    else
      var key := FieldValue(axis.fields[|axis.fields| - 1]);
      var rest := FieldNames(axis.fields[..|axis.fields| - 1]);
      var spec := AggSpec(axis.aggregations);
      if key !in t.columns then Err(KeyError(key))
      else match Missing(t.columns, rest)
        case Some(c) => Err(KeyError(c))
        case None =>
          if |spec| == 0 then Err(ValueError("No objects to concatenate"))
          else match Missing(rest, Keys(spec))
            case Some(c) => Err(KeyError(c))
            case None =>
              AggregatedInRest(axis.fields[..|axis.fields| - 1], axis.aggregations);
              Grouping.GroupBy(t, key, spec)
  }

  /** Every aggregated column among the selected names means every
      aggregated field among the selected fields. */
  lemma AggregatedInRest(rest: seq<Field>, aggs: Aggregations)
    requires Missing(FieldNames(rest), Keys(AggSpec(aggs))).None?
    ensures forall f :: HasKey(aggs, f) ==> f in rest
  {
    var names, spec := FieldNames(rest), AggSpec(aggs);
    forall f | HasKey(aggs, f) ensures f in rest {
      var j :| 0 <= j < |aggs| && aggs[j].0 == f;
      assert FieldValue(f) == Keys(spec)[j];
      assert FieldValue(f) in names;
      var k :| 0 <= k < |names| && names[k] == FieldValue(f);
      FieldOfValue(f);
      FieldOfValue(rest[k]);
    }
  }

  /** Grouping keys on the last field: the result has one row per distinct
      key, in ascending key order, with the key column first and then one
      column per configured aggregation, each holding the aggregation of
      that column over exactly the rows with that key. */
  lemma GroupTableSpec(t: Table, axis: AxisConfig)
    requires GroupTable(t, axis).Ok?
    ensures var key := FieldValue(axis.fields[|axis.fields| - 1]);
      var spec := AggSpec(axis.aggregations);
      var r := GroupTable(t, axis).value;
      WellFormed(r) && r.columns == [key] + FieldNames(Keys(axis.aggregations)) &&
      ColumnOf(r.rows, key) == Grouping.GroupKeys(Column(t, key)) &&
      forall i, j :: 0 <= i < |r.rows| && 0 <= j < |spec| ==>
        |Grouping.Group(t.rows, key, Cell(r.rows[i], key))| > 0 &&
        Grouping.Aggregate(spec[j].1, ColumnOf(Grouping.Group(t.rows, key, Cell(r.rows[i], key)), spec[j].0))
          == Ok(Cell(r.rows[i], spec[j].0))
  {
    var key := FieldValue(axis.fields[|axis.fields| - 1]);
    var spec := AggSpec(axis.aggregations);
    assert GroupTable(t, axis) == Grouping.GroupBy(t, key, spec);
    Grouping.GroupBySpec(t, key, spec);
  }

  /** The column the sort uses: x for "X-Axis", y for anything else. */
  function SortColumn(axis: AxisConfig, s: SortConfig): Field {
    if s.axis == XAxisText then axis.xAxis else axis.yAxis
  }

  /** `apply_sort`. With a sort configuration the table is sorted by the
      chosen axis in the chosen direction; without one it is sorted
      ascending by the first field unless the grouping field is temporal. */
  function SortStep(t: Table, axis: AxisConfig, fig: FigureConfig): (r: Result<Table>)
    ensures fig.sort.Some? ==> r == SortTable(t, FieldValue(SortColumn(axis, fig.sort.value)), fig.sort.value.ascending)
    ensures fig.sort.None? && |axis.fields| == 0 ==> r == Err(UnpackError)
    ensures fig.sort.None? && |axis.fields| > 0 && Temporal(axis.fields[|axis.fields| - 1]) ==> r == Ok(t)
    ensures fig.sort.None? && |axis.fields| > 0 && !Temporal(axis.fields[|axis.fields| - 1]) ==>
      r == SortTable(t, FieldValue(axis.fields[0]), true)
  {
    match fig.sort
    case Some(s) => SortTable(t, FieldValue(SortColumn(axis, s)), s.ascending)
    case None =>
      if |axis.fields| == 0 then Err(UnpackError)
      else if Temporal(axis.fields[|axis.fields| - 1]) then Ok(t)
      else SortTable(t, FieldValue(axis.fields[0]), true)
  }

  /** A sort that succeeds orders the rows by its column in its direction
      and only permutes them. */
  lemma SortStepSorted(t: Table, axis: AxisConfig, fig: FigureConfig)
    requires SortStep(t, axis, fig).Ok?
    ensures var r := SortStep(t, axis, fig).value;
      r.columns == t.columns && multiset(r.rows) == multiset(t.rows) &&
      (fig.sort.Some? ==>
        Sorting.SortedBy(r.rows, (row: Row) => Cell(row, FieldValue(SortColumn(axis, fig.sort.value))), fig.sort.value.ascending)) &&
      (fig.sort.None? && !Temporal(axis.fields[|axis.fields| - 1]) ==>
        Sorting.SortedBy(r.rows, (row: Row) => Cell(row, FieldValue(axis.fields[0])), true))
  {
  }

  // ---------------------------------------------------------------------
  // Making the figure

  /** The label function each copy calls. */
  function Label(gen: Generation, axis: AxisConfig, fig: FigureConfig, f: Field, labelType: string)
    : Result<Option<string>>
  {
    GetLabel(gen, axis, fig, f, labelType)
  }

  /** The custom title, or "<first> by <second>" from the title labels. */
  function Title(gen: Generation, axis: AxisConfig, fig: FigureConfig): (r: Result<string>)
    requires |axis.fields| >= 2
    ensures Given(fig.title) ==> r == Ok(fig.title.value)
    ensures !Given(fig.title) ==>
      (r.Ok? <==> Label(gen, axis, fig, axis.fields[0], "title").Ok? && Label(gen, axis, fig, axis.fields[1], "title").Ok?)
    ensures !Given(fig.title) && r.Ok? ==>
      r.value == Render(Label(gen, axis, fig, axis.fields[0], "title").value) + " by " +
                 Render(Label(gen, axis, fig, axis.fields[1], "title").value)
    ensures gen == Core ==> r.Ok?
  {
    if Given(fig.title) then Ok(fig.title.value)
    else
      var first :- Label(gen, axis, fig, axis.fields[0], "title");
      var second :- Label(gen, axis, fig, axis.fields[1], "title");
      Ok(Render(first) + " by " + Render(second))
  }

  /** `{field: get_label(field, "axis") for field in fields}`. */
  function LabelPairs(gen: Generation, axis: AxisConfig, fig: FigureConfig, fs: seq<Field>)
    : (r: Result<seq<(Field, Option<string>)>>)
    ensures r.Ok? <==> forall k :: 0 <= k < |fs| ==> Label(gen, axis, fig, fs[k], "axis").Ok?
    ensures r.Ok? ==> (|r.value| == |fs| &&
      forall k :: 0 <= k < |fs| ==> r.value[k] == (fs[k], Label(gen, axis, fig, fs[k], "axis").value))
    decreases |fs|
  {
    if |fs| == 0 then Ok([])
    else
      var l :- Label(gen, axis, fig, fs[0], "axis");
      var rest := LabelPairs(gen, axis, fig, fs[1..]);
      assert forall k :: 0 < k < |fs| ==> fs[k] == fs[1..][k - 1];
      if rest.Err? then Err(rest.error) else Ok([(fs[0], l)] + rest.value)
  }

  /** `make_figure`: unpack at least two fields, build the title and the
      labels, and bind x, y and the third field (if any) as text. */
  function MakeFigureStep(gen: Generation, kind: Plot, t: Table, axis: AxisConfig, fig: FigureConfig)
    : (r: Result<Figure>)
    ensures |axis.fields| < 2 ==> r == Err(UnpackError)
    ensures r.Ok? ==> (|axis.fields| >= 2 && Title(gen, axis, fig) == Ok(r.value.title) &&
      LabelPairs(gen, axis, fig, axis.fields).Ok? &&
      r.value.labels == FromPairs(LabelPairs(gen, axis, fig, axis.fields).value))
    ensures r.Ok? ==> r.value.kind == kind && r.value.xaxis.log == fig.xLog && r.value.yaxis.log == fig.yLog
    ensures r.Ok? ==> (|r.value.traces| == 1 && r.value.traces[0].x == Column(t, FieldValue(axis.xAxis)) &&
      r.value.traces[0].y == Data(Column(t, FieldValue(axis.yAxis))) &&
      r.value.traces[0].text == (if |axis.fields| > 2 then Column(t, FieldValue(axis.fields[2])) else []))
    ensures r.Ok? ==> r.value.xaxis.title == AxisTitle(r.value.labels, axis.xAxis) &&
                      r.value.yaxis.title == AxisTitle(r.value.labels, axis.yAxis)
  {
    if |axis.fields| < 2 then Err(UnpackError)
    else
      var title :- Title(gen, axis, fig);
      var pairs :- LabelPairs(gen, axis, fig, axis.fields);
      var text := if |axis.fields| > 2 then Some(axis.fields[2]) else None;
      PlotFigure(kind, t, axis.xAxis, axis.yAxis, title, FromPairs(pairs), fig.xLog, fig.yLog, text)
  }

  /** Every configured field has a label entry, and it is the field's own
      label: so an axis bound to a configured field is titled with that
      field's axis label. */
  lemma FigureLabels(gen: Generation, kind: Plot, t: Table, axis: AxisConfig, fig: FigureConfig, f: Field)
    requires MakeFigureStep(gen, kind, t, axis, fig).Ok? && f in axis.fields
    ensures var r := MakeFigureStep(gen, kind, t, axis, fig).value;
      Get(r.labels, f) == Some(Label(gen, axis, fig, f, "axis").value) &&
      AxisTitle(r.labels, f) == Label(gen, axis, fig, f, "axis").value
  {
    var pairs := LabelPairs(gen, axis, fig, axis.fields).value;
    var k :| 0 <= k < |axis.fields| && axis.fields[k] == f;
    assert pairs[k] == (f, Label(gen, axis, fig, f, "axis").value);
    FromPairsLast(pairs, f, Label(gen, axis, fig, f, "axis").value);
  }

  /** When every pair with key `k` carries the same value, the dict built from
      them maps `k` to that value. */
  lemma {:induction false} FromPairsLast<K, V>(pairs: seq<(K, V)>, k: K, v: V)
    requires exists i :: 0 <= i < |pairs| && pairs[i] == (k, v)
    requires forall i :: 0 <= i < |pairs| && pairs[i].0 == k ==> pairs[i].1 == v
    ensures Get(FromPairs(pairs), k) == Some(v)
    decreases |pairs|
  {
    var init := pairs[..|pairs| - 1];
    var last := pairs[|pairs| - 1];
    FromPairsDistinct(init);
    PutGet(FromPairs(init), last.0, last.1, k);
    if last.0 != k {
      var i :| 0 <= i < |pairs| && pairs[i] == (k, v);
      assert init[i] == (k, v);
      FromPairsLast(init, k, v);
    }
  }

  /** The title is the custom one when given; otherwise the core copy always
      produces "<first> by <second>" from the title labels. */
  lemma TitleRule(gen: Generation, kind: Plot, t: Table, axis: AxisConfig, fig: FigureConfig)
    requires MakeFigureStep(gen, kind, t, axis, fig).Ok?
    ensures var r := MakeFigureStep(gen, kind, t, axis, fig).value;
      (Given(fig.title) ==> r.title == fig.title.value) &&
      (!Given(fig.title) && gen == Core ==>
        r.title == Render(GetLabel(Core, axis, fig, axis.fields[0], "title").value) + " by " +
                   Render(GetLabel(Core, axis, fig, axis.fields[1], "title").value))
  {
  }

  // ---------------------------------------------------------------------
  // Moving averages

  /** `rolling(window=w, min_periods=3)`: position `i` has a value once its
      window (the last `min(i + 1, w)` values) holds at least 3 values. */
  function RollingDefined(n: nat, w: int): (r: seq<bool>)
    ensures |r| == n
    ensures forall i :: 0 <= i < n ==> (r[i] <==> (if i + 1 < w then i + 1 else w) >= 3)
  {
    seq(n, i requires 0 <= i < n => (if i + 1 < w then i + 1 else w) >= 3)
  }

  /** `pd.Series(y).rolling(window=window, min_periods=3).mean()`: the window
      must be a non-negative integer no smaller than the minimum period. */
  function RollingMean(ys: Series, window: Value): (r: Result<Series>)
    ensures !window.VInt? || window.i < 0 ==> r == Err(ValueError("window must be an integer 0 or greater"))
    ensures window.VInt? && 0 <= window.i < 3 ==>
      r == Err(ValueError("min_periods 3 must be <= window " + IntText(window.i)))
    ensures r.Ok? <==> window.VInt? && window.i >= 3
    ensures r.Ok? ==> r.value == Rolling(window.i, RollingDefined(Size(ys), window.i))
  {
    if !window.VInt? || window.i < 0 then Err(ValueError("window must be an integer 0 or greater"))
    else if window.i < 3 then Err(ValueError("min_periods 3 must be <= window " + IntText(window.i)))
    else Ok(Rolling(window.i, RollingDefined(Size(ys), window.i)))
  }

  /** With a valid window the first two positions are empty and every later
      one has a value. */
  lemma RollingDefinedFromThird(ys: Series, window: Value)
    requires RollingMean(ys, window).Ok?
    ensures var d := RollingMean(ys, window).value.defined;
      |d| == Size(ys) && forall i :: 0 <= i < |d| ==> (d[i] <==> i >= 2)
  {
  }

  /** The default legend name: "Weekly" or "Monthly" for 7 and 30, else
      "<w>-Day", followed by " Moving Avg". */
  function DefaultName(w: int): string {
    (if w == 7 then "Weekly" else if w == 30 then "Monthly" else IntText(w) + "-Day") + " Moving Avg"
  }

  /** The named windows, and the "<w>-Day" pattern for every other one. */
  lemma DefaultNames(w: int)
    ensures DefaultName(7) == "Weekly Moving Avg" && DefaultName(30) == "Monthly Moving Avg"
    ensures w != 7 && w != 30 ==> DefaultName(w) == IntText(w) + "-Day Moving Avg"
  {
    NamedWindows();
    DaySuffix(IntText(w));
  }

  // A proof step: the two named windows, with their literals compared once.
  lemma NamedWindows()
    ensures "Weekly" + " Moving Avg" == "Weekly Moving Avg" && "Monthly" + " Moving Avg" == "Monthly Moving Avg"
  {
  }

  // A proof step: splitting the "-Day Moving Avg" suffix off a name.
  lemma DaySuffix(t: string)
    ensures t + "-Day" + " Moving Avg" == t + "-Day Moving Avg"
  {
    assert "-Day" + " Moving Avg" == "-Day Moving Avg";
  }

  /** Distinct windows other than 7 and 30 get distinct default names. */
  lemma DefaultNamesDistinct(w: int, v: int)
    requires w != 7 && w != 30 && v != 7 && v != 30 && w != v
    ensures DefaultName(w) != DefaultName(v)
  {
    DefaultNames(w);
    DefaultNames(v);
    if DefaultName(w) == DefaultName(v) {
      SuffixCancel(IntText(w), IntText(v), "-Day Moving Avg");
      IntTextRoundTrip(w);
      IntTextRoundTrip(v);
    }
  }

  lemma SuffixCancel(a: string, b: string, tail: string)
    requires a + tail == b + tail
    ensures a == b
  {
    assert |a| == |b|;
    assert a == (a + tail)[..|a|];
    assert b == (b + tail)[..|b|];
  }

  /** The trace a moving average over `first` adds. */
  function AverageTrace(name: string, first: Trace, ma: Series): Trace {
    Trace(name, first.x, ma, [], Some("lines"), Some("dot"), None, None, None)
  }

  /** The first trace once a moving average has been added. */
  function Daily(first: Trace): Trace {
    first.(name := "Daily", showLegend := Some(true))
  }

  /** `add_moving_average_line(window, label)`: one dotted line over the
      first trace's x values, then the first trace is renamed "Daily" and
      shown in the legend. */
  function AddMovingAverage(fig: Option<Figure>, window: Value, legend: Option<string>): (r: Result<Figure>)
    ensures fig.None? ==> r == Err(ValueError("Figure not created yet"))
    ensures fig.Some? && |fig.value.traces| == 0 ==> r == Err(IndexError)
    ensures fig.Some? && |fig.value.traces| > 0 ==>
      (r.Ok? <==> RollingMean(fig.value.traces[0].y, window).Ok?)
    ensures r.Ok? ==> (fig.Some? && |fig.value.traces| > 0 &&
      r.value == fig.value.(traces := [Daily(fig.value.traces[0])] + fig.value.traces[1..] +
        [AverageTrace(if legend.Some? then legend.value else DefaultName(window.i), fig.value.traces[0],
                      RollingMean(fig.value.traces[0].y, window).value)]))
  {
    if fig.None? then Err(ValueError("Figure not created yet"))
    else if |fig.value.traces| == 0 then Err(IndexError)
    else
      var f := fig.value;
      var first := f.traces[0];
      var ma :- RollingMean(first.y, window);
      var name := if legend.Some? then legend.value else DefaultName(window.i);
      var added := f.traces + [AverageTrace(name, first, ma)];
      assert added[0 := Daily(first)] == [Daily(first)] + f.traces[1..] + [AverageTrace(name, first, ma)];
      Ok(f.(traces := added[0 := Daily(first)]))
  }

  /** One call adds exactly one trace, at the end, keeps the traces after
      the first, and renames the first "Daily". */
  lemma AddMovingAverageShape(f: Figure, window: Value, legend: Option<string>)
    requires AddMovingAverage(Some(f), window, legend).Ok?
    ensures var r := AddMovingAverage(Some(f), window, legend).value; var n := |f.traces|;
      n > 0 && |r.traces| == n + 1 && r.kind == f.kind && r.title == f.title && r.labels == f.labels &&
      r.xaxis == f.xaxis && r.yaxis == f.yaxis &&
      r.traces[0] == Daily(f.traces[0]) &&
      (forall k :: 1 <= k < n ==> r.traces[k] == f.traces[k]) &&
      window.VInt? && window.i >= 3 &&
      r.traces[n] == AverageTrace(if legend.Some? then legend.value else DefaultName(window.i), f.traces[0],
                                  Rolling(window.i, RollingDefined(Size(f.traces[0].y), window.i)))
  {
  }

  // ---------------------------------------------------------------------
  // Formatting

  /** The x axis gets one tick per unit for HOUR and DAY scatter plots. */
  predicate UnitTicks(kind: Plot, x: Field) { x in {Hour, Day} && kind == Scatter }

  /** The title an axis gets on a log scale without a custom label. */
  function LogTitle(a: AxisLayout, logOn: bool, custom: Option<string>): Option<string> {
    if logOn && !Given(custom) then Some(Render(a.title) + " (log scale)") else a.title
  }

  /** Scatter traces get their text above the point, in size 10. */
  function Positioned(kind: Plot, ts: seq<Trace>): (r: seq<Trace>)
    ensures |r| == |ts|
    ensures forall k :: 0 <= k < |ts| ==>
      r[k] == if kind == Scatter then ts[k].(textPosition := Some("top center"), textSize := Some(10)) else ts[k]
  {
    seq(|ts|, k requires 0 <= k < |ts| =>
      if kind == Scatter then ts[k].(textPosition := Some("top center"), textSize := Some(10)) else ts[k])
  }

  /** The layout update and the trace update of `format_figure`, before the
      moving averages. */
  function Layout(kind: Plot, axis: AxisConfig, cfg: FigureConfig, f: Figure): (r: Figure)
    ensures r.kind == f.kind && r.title == f.title && r.labels == f.labels
    ensures r.xaxis.log == f.xaxis.log && r.yaxis.log == f.yaxis.log && r.yaxis.dtick == f.yaxis.dtick
    ensures UnitTicks(kind, axis.xAxis) ==> r.xaxis.dtick == Some(1)
    ensures !UnitTicks(kind, axis.xAxis) ==> r.xaxis.dtick == f.xaxis.dtick
    ensures r.xaxis.title == LogTitle(f.xaxis, cfg.xLog, cfg.xLabel)
    ensures r.yaxis.title == LogTitle(f.yaxis, cfg.yLog, cfg.yLabel)
    ensures r.traces == Positioned(kind, f.traces)
  {
    var dtick := if UnitTicks(kind, axis.xAxis) then Some(1) else f.xaxis.dtick;
    f.(xaxis := f.xaxis.(dtick := dtick, title := LogTitle(f.xaxis, cfg.xLog, cfg.xLabel)),
       yaxis := f.yaxis.(title := LogTitle(f.yaxis, cfg.yLog, cfg.yLabel)),
       traces := Positioned(kind, f.traces))
  }

  /** The log suffix is added exactly when the axis is logarithmic and has
      no custom label; a custom label is never suffixed. */
  lemma LogSuffixRule(a: AxisLayout, logOn: bool, custom: Option<string>)
    ensures Given(custom) ==> LogTitle(a, logOn, custom) == a.title
    ensures !logOn ==> LogTitle(a, logOn, custom) == a.title
    ensures logOn && !Given(custom) ==>
      var t := LogTitle(a, logOn, custom).value;
      t[..|t| - |" (log scale)"|] == Render(a.title) && t[|t| - |" (log scale)"|..] == " (log scale)"
  {
  }

  /** The moving-average loop: each window in turn; a failing window stops
      the loop, leaving the traces added so far. */
  function AddAll(f: Figure, ws: seq<Value>): (r: (Figure, Outcome))
    ensures r.0 == f.(traces := r.0.traces)
    ensures |f.traces| == 0 && |ws| > 0 ==> r == (f, Fail(IndexError))
    decreases |ws|
  {
    if |ws| == 0 then (f, Pass)
    else
      var prev := AddAll(f, ws[..|ws| - 1]);
      if prev.1.Fail? then prev
      else match AddMovingAverage(Some(prev.0), ws[|ws| - 1], None)
        case Ok(g) => (g, Pass)
        case Err(e) => (prev.0, Fail(e))
  }

  /** The trace the loop adds for window `w` over the chart's own trace. */
  function WindowTrace(first: Trace, w: int): Trace {
    AverageTrace(DefaultName(w), first, Rolling(w, RollingDefined(Size(first.y), w)))
  }

  /** The loop keeps the layout, keeps every trace after the first, and
      keeps the x and y values of the first. */
  lemma {:induction false} AddAllShape(f: Figure, ws: seq<Value>)
    requires |f.traces| > 0 && AddAll(f, ws).1.Pass?
    ensures var r := AddAll(f, ws).0;
      |r.traces| == |f.traces| + |ws| && r == f.(traces := r.traces) &&
      r.traces[0].x == f.traces[0].x && r.traces[0].y == f.traces[0].y &&
      (|ws| > 0 ==> r.traces[0] == Daily(f.traces[0])) &&
      forall k :: 1 <= k < |f.traces| ==> r.traces[k] == f.traces[k]
    decreases |ws|
  {
    if |ws| > 0 {
      var init := ws[..|ws| - 1];
      AddAllShape(f, init);
      var prev := AddAll(f, init).0;
      AddMovingAverageShape(prev, ws[|ws| - 1], None);
    }
  }

  /** The moving averages come in configuration order: after the loop the
      trace at position `n + k` is the average over the k-th window, under
      its default name. */
  lemma {:induction false} AddAllOrder(f: Figure, ws: seq<Value>)
    requires |f.traces| > 0 && AddAll(f, ws).1.Pass?
    ensures WindowsAt(AddAll(f, ws).0.traces, |f.traces|, f.traces[0], ws)
    decreases |ws|
  {
    AddAllShape(f, ws);
    if |ws| > 0 {
      var init := ws[..|ws| - 1];
      var n := |f.traces|;
      AddAllLast(f, ws);
      AddAllOrder(f, init);
      AddAllShape(f, init);
      var prev := AddAll(f, init).0;
      var r := AddAll(f, ws).0;
      assert r.traces[n + |init|] == WindowTrace(f.traces[0], ws[|ws| - 1].i) by {
        AddMovingAverageShape(prev, ws[|ws| - 1], None);
      }
      assert forall k :: 1 <= k < |prev.traces| ==> r.traces[k] == prev.traces[k] by {
        AddMovingAverageShape(prev, ws[|ws| - 1], None);
      }
      WindowsExtend(f.traces[0], prev.traces, r.traces, n, init, ws);
    }
  }

  /** A loop that succeeds succeeded before its last window, which then
      added its trace to the figure reached so far. */
  lemma AddAllLast(f: Figure, ws: seq<Value>)
    requires |ws| > 0 && AddAll(f, ws).1.Pass?
    ensures AddAll(f, ws[..|ws| - 1]).1.Pass?
    ensures AddMovingAverage(Some(AddAll(f, ws[..|ws| - 1]).0), ws[|ws| - 1], None).Ok?
    ensures AddAll(f, ws).0 == AddMovingAverage(Some(AddAll(f, ws[..|ws| - 1]).0), ws[|ws| - 1], None).value
  {
  }

  /** After the first `n` traces come one average per window, in order. */
  predicate WindowsAt(traces: seq<Trace>, n: nat, first: Trace, ws: seq<Value>) {
    |traces| == n + |ws| &&
    forall k :: 0 <= k < |ws| ==> ws[k].VInt? && ws[k].i >= 3 && traces[n + k] == WindowTrace(first, ws[k].i)
  }

  lemma WindowsExtend(first: Trace, before: seq<Trace>, after: seq<Trace>, n: nat, init: seq<Value>, ws: seq<Value>)
    requires |ws| > 0 && n > 0 && init == ws[..|ws| - 1]
    requires |after| == n + |ws| && WindowsAt(before, n, first, init)
    requires forall k :: 1 <= k < |before| ==> after[k] == before[k]
    requires ws[|ws| - 1].VInt? && ws[|ws| - 1].i >= 3 && after[n + |init|] == WindowTrace(first, ws[|ws| - 1].i)
    ensures WindowsAt(after, n, first, ws)
  {
    forall k | 0 <= k < |ws|
      ensures ws[k].VInt? && ws[k].i >= 3 && after[n + k] == WindowTrace(first, ws[k].i)
    {
      if k < |init| {
        assert ws[k] == init[k];
        assert after[n + k] == before[n + k];
      }
    }
  }

  /** Once a window fails, the loop as a whole fails the same way. */
  lemma {:induction false} AddAllStops(f: Figure, ws: seq<Value>, m: nat)
    requires m <= |ws| && AddAll(f, ws[..m]).1.Fail?
    ensures AddAll(f, ws) == AddAll(f, ws[..m])
    decreases |ws| - m
  {
    if m < |ws| {
      assert ws[..m + 1][..m] == ws[..m];
      AddAllStops(f, ws, m + 1);
    } else {
      assert ws[..m] == ws;
    }
  }

  /** One more window: the chain so far, then that window's moving average. */
  lemma AddAllNext(f: Figure, ws: seq<Value>, i: nat)
    requires i < |ws| && AddAll(f, ws[..i]).1.Pass?
    ensures AddAllOne(AddAll(f, ws[..i]).0, ws[i]) == AddAll(f, ws[..i + 1])
  {
    assert ws[..i + 1][..i] == ws[..i];
  }

  /** The chain's step for one window on a figure that has not failed. */
  function AddAllOne(g: Figure, w: Value): (Figure, Outcome) {
    match AddMovingAverage(Some(g), w, None)
    case Ok(h) => (h, Pass)
    case Err(e) => (g, Fail(e))
  }

  /** `format_figure` as a whole. */
  function FormatStep(kind: Plot, axis: AxisConfig, cfg: FigureConfig, fig: Option<Figure>): (r: (Option<Figure>, Outcome))
    ensures fig.None? ==> r == (None, Fail(ValueError("Figure does not exist")))
    ensures fig.Some? ==> r.0.Some? && (r.0.value, r.1) == AddAll(Layout(kind, axis, cfg, fig.value), cfg.movingAverages)
  {
    if fig.None? then (None, Fail(ValueError("Figure does not exist")))
    else
      var done := AddAll(Layout(kind, axis, cfg, fig.value), cfg.movingAverages);
      (Some(done.0), done.1)
  }

  // ---------------------------------------------------------------------
  // The whole pipeline

  /** The tables `build` passes through, up to the grouped and sorted one. */
  function BuildTable(axis: AxisConfig, filters: seq<FilterGroup>, cfg: FigureConfig, t: Table): (r: Result<Table>) {
    var t1 :- PrepareAll(t, axis.fields);
    var t2 :- PrepareAll(t1, FilterFields(filters));
    var t3 :- ApplyAll(t2, filters);
    var t4 :- GroupTable(t3, axis);
    SortStep(t4, axis, cfg)
  }

  /** `build`: prepare for the axes, prepare for the filters, filter, group,
      sort, make the figure and format it, in that order. */
  function BuildFigure(gen: Generation, kind: Plot, axis: AxisConfig, filters: seq<FilterGroup>,
                       cfg: FigureConfig, t: Table): (r: Result<Figure>)
    ensures BuildTable(axis, filters, cfg, t).Err? ==> r == Err(BuildTable(axis, filters, cfg, t).error)
    ensures r.Ok? ==> (|axis.fields| >= 2 && r.value.kind == kind &&
      r.value.xaxis.log == cfg.xLog && r.value.yaxis.log == cfg.yLog)
  {
    var sorted :- BuildTable(axis, filters, cfg, t);
    var f :- MakeFigureStep(gen, kind, sorted, axis, cfg);
    var done := FormatStep(kind, axis, cfg, Some(f));
    if done.1.Fail? then Err(done.1.error) else Ok(done.0.value)
  }

  /** A successful pipeline passed every stage. */
  lemma BuildStages(axis: AxisConfig, filters: seq<FilterGroup>, cfg: FigureConfig, t: Table)
    requires BuildTable(axis, filters, cfg, t).Ok?
    ensures PrepareAll(t, axis.fields).Ok?
    ensures PrepareAll(PrepareAll(t, axis.fields).value, FilterFields(filters)).Ok?
    ensures var t2 := PrepareAll(PrepareAll(t, axis.fields).value, FilterFields(filters)).value;
      ApplyAll(t2, filters).Ok? && GroupTable(ApplyAll(t2, filters).value, axis).Ok? &&
      BuildTable(axis, filters, cfg, t) == SortStep(GroupTable(ApplyAll(t2, filters).value, axis).value, axis, cfg)
  {
  }

  /** Grouping sees exactly the rows that pass every filter, after the
      columns for the axes and the filters have been derived. */
  lemma BuildFiltersBeforeGrouping(axis: AxisConfig, filters: seq<FilterGroup>, cfg: FigureConfig, t: Table)
    requires BuildTable(axis, filters, cfg, t).Ok?
    ensures var t1 := PrepareAll(t, axis.fields).value;
      var t2 := PrepareAll(t1, FilterFields(filters)).value;
      var t3 := Table(t2.columns, Where(t2.rows, KeepsAll(filters)));
      GroupTable(t3, axis).Ok? &&
      BuildTable(axis, filters, cfg, t) == SortStep(GroupTable(t3, axis).value, axis, cfg)
  {
    BuildStages(axis, filters, cfg, t);
    var t1 := PrepareAll(t, axis.fields).value;
    var t2 := PrepareAll(t1, FilterFields(filters)).value;
    ApplyAllRows(t2, filters);
  }

  /** Before filtering, every derivable field the axes or the filters name is
      a column. */
  lemma BuildDerivesColumns(axis: AxisConfig, filters: seq<FilterGroup>, cfg: FigureConfig, t: Table, f: Field)
    requires BuildTable(axis, filters, cfg, t).Ok?
    requires (f in axis.fields || f in FilterFields(filters)) && Derivable(f)
    ensures FieldValue(f) in PrepareAll(PrepareAll(t, axis.fields).value, FilterFields(filters)).value.columns
  {
    BuildStages(axis, filters, cfg, t);
    var t1 := PrepareAll(t, axis.fields).value;
    var t2 := PrepareAll(t1, FilterFields(filters)).value;
    PrepareCovers(t, axis.fields);
    PrepareCovers(t1, FilterFields(filters));
    if f in axis.fields {
      var i :| 0 <= i < |t1.columns| && t1.columns[i] == FieldValue(f);
      assert t2.columns[..|t1.columns|][i] == FieldValue(f);
    }
  }

  // ---------------------------------------------------------------------
  // The builder object

  class PlotBuilder {
    const gen: Generation
    const plotType: Plot
    const axisConfig: AxisConfig
    const filters: seq<FilterGroup>
    const figureConfig: FigureConfig
    var df: Table
    var fig: Option<Figure>

    /** `__init__`: a copy of the loaded table and no figure yet. */
    constructor(gen: Generation, plotType: Plot, axisConfig: AxisConfig, filters: seq<FilterGroup>,
                figureConfig: FigureConfig, data: Table)
      ensures this.gen == gen && this.plotType == plotType && this.axisConfig == axisConfig
      ensures this.filters == filters && this.figureConfig == figureConfig
      ensures df == data && fig == None
    {
      this.gen := gen;
      this.plotType := plotType;
      this.axisConfig := axisConfig;
      this.filters := filters;
      this.figureConfig := figureConfig;
      df := data;
      fig := None;
    }

    /** Derive the columns the axes need. The derivations write into the
        builder's own table, so on failure it keeps the columns derived
        before the failing field. */
    method PrepareAxes() returns (o: Outcome)
      modifies this
      ensures PrepareAll(old(df), axisConfig.fields).Ok? ==> o == Pass && df == PrepareAll(old(df), axisConfig.fields).value
      ensures PrepareAll(old(df), axisConfig.fields).Err? ==>
        o == Fail(PrepareAll(old(df), axisConfig.fields).error) && df == PrepareReached(old(df), axisConfig.fields)
      ensures fig == old(fig)
    {
      var r, reached := Prepare(df, axisConfig.fields);
      df := reached;
      if r.Err? {
        return Fail(r.error);
      }
      return Pass;
    }

    /** Derive the columns the filters need, in place like `PrepareAxes`. */
    method PrepareFilters() returns (o: Outcome)
      modifies this
      ensures PrepareAll(old(df), FilterFields(filters)).Ok? ==>
        o == Pass && df == PrepareAll(old(df), FilterFields(filters)).value
      ensures PrepareAll(old(df), FilterFields(filters)).Err? ==>
        o == Fail(PrepareAll(old(df), FilterFields(filters)).error) && df == PrepareReached(old(df), FilterFields(filters))
      ensures fig == old(fig)
    {
      var r, reached := Prepare(df, FilterFields(filters));
      df := reached;
      if r.Err? {
        return Fail(r.error);
      }
      return Pass;
    }

    /** Keep the rows every filter group accepts. */
    method Filter() returns (o: Outcome)
      modifies this
      ensures ApplyAll(old(df), filters).Ok? ==> o == Pass && df == ApplyAll(old(df), filters).value
      ensures ApplyAll(old(df), filters).Err? ==> o == Fail(ApplyAll(old(df), filters).error) && df == old(df)
      ensures fig == old(fig)
    {
      var r := ApplyFilters(df, filters);
      if r.Err? {
        return Fail(r.error);
      }
      df := r.value;
      return Pass;
    }

    method Groupby() returns (o: Outcome)
      modifies this
      ensures GroupTable(old(df), axisConfig).Ok? ==> o == Pass && df == GroupTable(old(df), axisConfig).value
      ensures GroupTable(old(df), axisConfig).Err? ==> o == Fail(GroupTable(old(df), axisConfig).error) && df == old(df)
      ensures fig == old(fig)
    {
      var r := GroupTable(df, axisConfig);
      if r.Err? {
        return Fail(r.error);
      }
      df := r.value;
      return Pass;
    }

    method ApplySort() returns (o: Outcome)
      modifies this
      ensures SortStep(old(df), axisConfig, figureConfig).Ok? ==>
        o == Pass && df == SortStep(old(df), axisConfig, figureConfig).value
      ensures SortStep(old(df), axisConfig, figureConfig).Err? ==>
        o == Fail(SortStep(old(df), axisConfig, figureConfig).error) && df == old(df)
      ensures fig == old(fig)
    {
      var r := SortStep(df, axisConfig, figureConfig);
      if r.Err? {
        return Fail(r.error);
      }
      df := r.value;
      return Pass;
    }

    method MakeFigure() returns (o: Outcome)
      modifies this
      ensures MakeFigureStep(gen, plotType, df, axisConfig, figureConfig).Ok? ==>
        o == Pass && fig == Some(MakeFigureStep(gen, plotType, df, axisConfig, figureConfig).value)
      ensures MakeFigureStep(gen, plotType, df, axisConfig, figureConfig).Err? ==>
        o == Fail(MakeFigureStep(gen, plotType, df, axisConfig, figureConfig).error) && fig == old(fig)
      ensures df == old(df)
    {
      var r := MakeFigureStep(gen, plotType, df, axisConfig, figureConfig);
      if r.Err? {
        return Fail(r.error);
      }
      fig := Some(r.value);
      return Pass;
    }

    method AddMovingAverageLine(window: Value, legend: Option<string>) returns (o: Outcome)
      modifies this
      ensures AddMovingAverage(old(fig), window, legend).Ok? ==>
        o == Pass && fig == Some(AddMovingAverage(old(fig), window, legend).value)
      ensures AddMovingAverage(old(fig), window, legend).Err? ==>
        o == Fail(AddMovingAverage(old(fig), window, legend).error) && fig == old(fig)
      ensures df == old(df)
    {
      var r := AddMovingAverage(fig, window, legend);
      if r.Err? {
        return Fail(r.error);
      }
      fig := Some(r.value);
      return Pass;
    }

    /** `format_figure`: the layout and trace updates, then one moving
        average per configured window. A failing window leaves the figure
        as far as it got. */
    method FormatFigure() returns (o: Outcome)
      modifies this
      ensures (fig, o) == FormatStep(plotType, axisConfig, figureConfig, old(fig))
      ensures df == old(df)
    {
      if fig.None? {
        return Fail(ValueError("Figure does not exist"));
      }
      var start := Layout(plotType, axisConfig, figureConfig, fig.value);
      fig := Some(start);
      var ws := figureConfig.movingAverages;
      var i := 0;
      while i < |ws|
        invariant 0 <= i <= |ws|
        invariant fig.Some? && AddAll(start, ws[..i]) == (fig.value, Pass)
        invariant df == old(df)
      {
        AddAllNext(start, ws, i);
        o := AddMovingAverageLine(ws[i], None);
        if o.Fail? {
          AddAllStops(start, ws, i + 1);
          return;
        }
        i := i + 1;
      }
      assert ws[..i] == ws;
      return Pass;
    }

    /** `build`. On success the builder holds the grouped and sorted table
        and the formatted figure, which it returns. */
    method Build() returns (r: Result<Figure>)
      modifies this
      ensures r == BuildFigure(gen, plotType, axisConfig, filters, figureConfig, old(df))
      ensures r.Ok? ==> fig == Some(r.value) && df == BuildTable(axisConfig, filters, figureConfig, old(df)).value
    {
      var o := PrepareAxes();
      if o.Fail? { return Err(o.error); }
      o := PrepareFilters();
      if o.Fail? { return Err(o.error); }
      o := Filter();
      if o.Fail? { return Err(o.error); }
      o := Groupby();
      if o.Fail? { return Err(o.error); }
      o := ApplySort();
      if o.Fail? { return Err(o.error); }
      o := MakeFigure();
      if o.Fail? { return Err(o.error); }
      o := FormatFigure();
      if o.Fail? { return Err(o.error); }
      return Ok(fig.value);
    }
  }
}
