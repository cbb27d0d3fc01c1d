/** The configuration records of the config-driven builder and the table
    operations they drive: derived-column synthesis, parsing the dashboard's
    raw selections into axis, filter and figure configurations, label
    precedence, and applying filter groups. The dashboard file carries its
    own copy of these records; where that copy differs it is a `Generation`
    argument. */
module CoreModels {
  import opened Wrappers
  import opened Values
  import opened Dicts
  import opened Tables
  import opened Enums
  import Sorting

  /** Which copy of the records: the core package or the dashboard file. */
  datatype Generation = Core | Dashboard

  // ---------------------------------------------------------------------
  // Derived columns

  /** The fields `_add_derived_field` can synthesise. */
  predicate Derivable(f: Field) { f in {Hour, Day, Date, Count} }

  /** The cells of a field derived from the current table. HOUR, DAY and DATE
      read the timestamp column; COUNT is the constant 1. */
  function DerivedCells(t: Table, f: Field): (r: Result<seq<Value>>)
    requires Derivable(f)
    ensures f == Count ==> r == Ok(seq(|t.rows|, _ => VInt(1)))
    ensures f != Count && "datetime" !in t.columns ==> r == Err(KeyError("datetime"))
    ensures r.Ok? ==> |r.value| == |t.rows|
  {
    if f == Count then Ok(seq(|t.rows|, _ => VInt(1)))
    else
      var col :- GetColumn(t, FieldValue(Datetime));
      if f == Hour then MapCells(col, HourOf)
      else if f == Day then MapCells(col, DayOf)
      else MapCells(col, CalendarDateOf)
  }

  /** `_add_derived_field(df, field)`: a column the table lacks is derived;
      a column it has, or a field that cannot be derived, leaves it alone. */
  function AddDerivedField(t: Table, f: Field): (r: Result<Table>)
    ensures FieldValue(f) in t.columns || !Derivable(f) ==> r == Ok(t)
  {
    if FieldValue(f) in t.columns || !Derivable(f) then Ok(t)
    else
      var vals :- DerivedCells(t, f);
      Ok(SetColumn(t, FieldValue(f), vals))
  }

  /** A derivation appends exactly the derived column and keeps every other
      column; HOUR, DAY and DATE take the hour, the day of the month and the
      calendar date of each timestamp. */
  lemma AddDerivedFieldSpec(t: Table, f: Field)
    requires WellFormed(t) && Derivable(f) && FieldValue(f) !in t.columns && AddDerivedField(t, f).Ok?
    ensures var r := AddDerivedField(t, f).value;
      WellFormed(r) && r.columns == t.columns + [FieldValue(f)] && |r.rows| == |t.rows| &&
      (forall c :: c != FieldValue(f) ==> Column(r, c) == Column(t, c)) &&
      (forall k :: 0 <= k < |t.rows| ==>
        var ts := Cell(t.rows[k], "datetime");
        var cell := Cell(r.rows[k], FieldValue(f));
        (f == Count ==> cell == VInt(1)) &&
        (f == Hour ==> ts.VTime? && cell == VInt(ts.t.hour)) &&
        (f == Day ==> ts.VTime? && cell == VInt(ts.t.date.day)) &&
        (f == Date ==> ts.VTime? && cell == VDate(ts.t.date)))
  {
    var vals := DerivedCells(t, f).value;
    SetColumnSpec(t, FieldValue(f), vals);
    var r := AddDerivedField(t, f).value;
    forall k | 0 <= k < |t.rows|
      ensures var ts := Cell(t.rows[k], "datetime");
        var cell := Cell(r.rows[k], FieldValue(f));
        (f == Count ==> cell == VInt(1)) &&
        (f == Hour ==> ts.VTime? && cell == VInt(ts.t.hour)) &&
        (f == Day ==> ts.VTime? && cell == VInt(ts.t.date.day)) &&
        (f == Date ==> ts.VTime? && cell == VDate(ts.t.date))
    {
      assert Column(r, FieldValue(f))[k] == vals[k];
      if f != Count {
        DerivedCellAt(t, f, k);
      }
    }
  }

  /** The k-th derived cell of HOUR, DAY or DATE comes from the k-th timestamp. */
  lemma DerivedCellAt(t: Table, f: Field, k: nat)
    requires f in {Hour, Day, Date} && DerivedCells(t, f).Ok? && k < |t.rows|
    ensures var ts := Cell(t.rows[k], "datetime"); var v := DerivedCells(t, f).value[k];
      ts.VTime? &&
      v == (if f == Hour then VInt(ts.t.hour) else if f == Day then VInt(ts.t.date.day) else VDate(ts.t.date))
  {
    var col := Column(t, "datetime");
    assert col[k] == Cell(t.rows[k], "datetime");
    if f == Hour {
      assert DerivedCells(t, f).value[k] == HourOf(col[k]).value;
    } else if f == Day {
      assert DerivedCells(t, f).value[k] == DayOf(col[k]).value;
    } else {
      assert DerivedCells(t, f).value[k] == CalendarDateOf(col[k]).value;
    }
  }

  /** Adding the same field twice changes nothing the second time. */
  lemma AddDerivedFieldIdempotent(t: Table, f: Field)
    requires AddDerivedField(t, f).Ok?
    ensures AddDerivedField(AddDerivedField(t, f).value, f) == AddDerivedField(t, f)
  {
  }

  /** `prepare_dataframe`: derive each field in turn, stopping at the first
      failure. */
  function PrepareAll(t: Table, fs: seq<Field>): (r: Result<Table>)
    ensures r.Ok? ==> |r.value.rows| == |t.rows|
    ensures (forall k :: 0 <= k < |fs| ==> fs[k] !in {Hour, Day, Date}) ==> r.Ok?
    decreases |fs|
  {
    if |fs| == 0 then Ok(t)
    else
      var prev :- PrepareAll(t, fs[..|fs| - 1]);
      AddDerivedField(prev, fs[|fs| - 1])
  }

  /** Preparing keeps the existing columns in place and leaves every
      derivable field it was given present. */
  lemma {:induction false} PrepareCovers(t: Table, fs: seq<Field>)
    requires PrepareAll(t, fs).Ok?
    ensures Covers(PrepareAll(t, fs).value.columns, t.columns, fs)
    decreases |fs|
  {
    if |fs| > 0 {
      var init := fs[..|fs| - 1];
      PrepareLast(t, fs);
      PrepareCovers(t, init);
      var prev := PrepareAll(t, init).value;
      AddDerivedKeeps(prev, fs[|fs| - 1]);
      CoversExtend(prev.columns, PrepareAll(t, fs).value.columns, t.columns, fs);
    }
  }

  /** The columns start with `base` and hold every derivable field of `fs`. */
  predicate Covers(cols: seq<string>, base: seq<string>, fs: seq<Field>) {
    |cols| >= |base| && cols[..|base|] == base &&
    forall f :: f in fs && Derivable(f) ==> FieldValue(f) in cols
  }

  /** A preparation that succeeds succeeded before its last field. */
  lemma PrepareLast(t: Table, fs: seq<Field>)
    requires |fs| > 0 && PrepareAll(t, fs).Ok?
    ensures PrepareAll(t, fs[..|fs| - 1]).Ok?
    ensures PrepareAll(t, fs) == AddDerivedField(PrepareAll(t, fs[..|fs| - 1]).value, fs[|fs| - 1])
  {
  }

  /** One derivation keeps the columns in front and leaves its field present. */
  lemma AddDerivedKeeps(t: Table, f: Field)
    requires AddDerivedField(t, f).Ok?
    ensures var cols := AddDerivedField(t, f).value.columns;
      |cols| >= |t.columns| && cols[..|t.columns|] == t.columns &&
      (Derivable(f) ==> FieldValue(f) in cols)
  {
    if FieldValue(f) !in t.columns && Derivable(f) {
      var cols := AddDerivedField(t, f).value.columns;
      assert cols == t.columns + [FieldValue(f)];
      assert cols[|t.columns|] == FieldValue(f);
    }
  }

  lemma CoversExtend(prev: seq<string>, cols: seq<string>, base: seq<string>, fs: seq<Field>)
    requires |fs| > 0 && Covers(prev, base, fs[..|fs| - 1])
    requires |cols| >= |prev| && cols[..|prev|] == prev
    requires Derivable(fs[|fs| - 1]) ==> FieldValue(fs[|fs| - 1]) in cols
    ensures Covers(cols, base, fs)
  {
    assert cols[..|base|] == prev[..|base|];
    forall f | f in fs && Derivable(f) ensures FieldValue(f) in cols {
      if f != fs[|fs| - 1] {
        assert f in fs[..|fs| - 1];
        var k :| 0 <= k < |prev| && prev[k] == FieldValue(f);
        assert cols[k] == prev[k];
      }
    }
  }

  /** A table that already holds every derivable field is left unchanged. */
  lemma {:induction false} PrepareNoop(t: Table, fs: seq<Field>)
    requires forall f :: f in fs && Derivable(f) ==> FieldValue(f) in t.columns
    ensures PrepareAll(t, fs) == Ok(t)
    decreases |fs|
  {
    if |fs| > 0 {
      PrepareNoop(t, fs[..|fs| - 1]);
      assert fs[|fs| - 1] in fs;
    }
  }

  /** Preparing twice gives what preparing once gave. */
  lemma PrepareIdempotent(t: Table, fs: seq<Field>)
    requires PrepareAll(t, fs).Ok?
    ensures PrepareAll(PrepareAll(t, fs).value, fs) == PrepareAll(t, fs)
  {
    PrepareCovers(t, fs);
    PrepareNoop(PrepareAll(t, fs).value, fs);
  }

  /** The table `prepare_dataframe` leaves in its caller's frame:
      `_add_derived_field` writes each derived column into the frame it is
      given, so every column derived before a failing field stays. */
  function PrepareReached(t: Table, fs: seq<Field>): (r: Table)
    ensures PrepareAll(t, fs).Ok? ==> r == PrepareAll(t, fs).value
    decreases |fs|
  {
    if |fs| == 0 then t
    else
      var init := fs[..|fs| - 1];
      var prev := PrepareAll(t, init);
      if prev.Ok? && AddDerivedField(prev.value, fs[|fs| - 1]).Ok? then
        AddDerivedField(prev.value, fs[|fs| - 1]).value
      else PrepareReached(t, init)
  }

  /** A failing preparation leaves the table prepared by the fields in front
      of the failing one, and fails with that field's error. */
  lemma {:induction false} PrepareReachedFails(t: Table, fs: seq<Field>)
    requires PrepareAll(t, fs).Err?
    ensures exists n :: (0 <= n < |fs| && PrepareAll(t, fs[..n]) == Ok(PrepareReached(t, fs)) &&
      PrepareAll(t, fs) == AddDerivedField(PrepareReached(t, fs), fs[n]))
    decreases |fs|
  {
    var init := fs[..|fs| - 1];
    if PrepareAll(t, init).Ok? {
      var n := |fs| - 1;
      assert fs[..n] == init;
    } else {
      PrepareReachedFails(t, init);
      var n :| 0 <= n < |init| && PrepareAll(t, init[..n]) == Ok(PrepareReached(t, init)) &&
        PrepareAll(t, init) == AddDerivedField(PrepareReached(t, init), init[n]);
      assert init[..n] == fs[..n] && init[n] == fs[n];
    }
  }

  /** Axis fields COUNT then HOUR on a table without timestamps: the count
      column is written before HOUR raises, and it stays. */
  lemma CountStaysWhenHourFails(t: Table)
    requires "datetime" !in t.columns && "count" !in t.columns && "hour" !in t.columns
    ensures PrepareAll(t, [Count, Hour]) == Err(KeyError("datetime"))
    ensures PrepareReached(t, [Count, Hour]).columns == t.columns + ["count"]
  {
    var c := [Count, Hour];
    assert c[..1] == [Count] && c[..1][..0] == [];
    var counted := SetColumn(t, "count", seq(|t.rows|, _ => VInt(1)));
    assert PrepareAll(t, [Count]) == Ok(counted);
    SetColumnSpec(t, "count", seq(|t.rows|, _ => VInt(1)));
    assert counted.columns == t.columns + ["count"];
  }

  /** Once a prefix of the fields fails, the rest leaves the table alone. */
  lemma {:induction false} PrepareReachedStops(t: Table, fs: seq<Field>, n: nat)
    requires n <= |fs| && PrepareAll(t, fs[..n]).Err?
    ensures PrepareReached(t, fs) == PrepareReached(t, fs[..n])
    decreases |fs| - n
  {
    if n < |fs| {
      var m := fs[..n + 1];
      assert m[..n] == fs[..n];
      assert PrepareReached(t, m) == PrepareReached(t, fs[..n]);
      PrepareReachedStops(t, fs, n + 1);
    } else {
      assert fs[..n] == fs;
    }
  }

  /** The loop of `prepare_dataframe`, which reassigns `df` each round;
      `reached` is the frame it leaves behind, also when it raises. */
  method Prepare(t: Table, fs: seq<Field>) returns (r: Result<Table>, reached: Table)
    ensures r == PrepareAll(t, fs)
    ensures reached == PrepareReached(t, fs)
  {
    var df := t;
    var i := 0;
    while i < |fs|
      invariant 0 <= i <= |fs|
      invariant PrepareAll(t, fs[..i]) == Ok(df)
    {
      assert fs[..i + 1][..i] == fs[..i];
      var next := AddDerivedField(df, fs[i]);
      if next.Err? {
        PrepareFailStops(t, fs, i + 1);
        PrepareReachedStops(t, fs, i + 1);
        return next, df;
      }
      df := next.value;
      i := i + 1;
    }
    assert fs[..i] == fs;
    return Ok(df), df;
  }

  /** Once a prefix of the fields fails, the whole preparation fails alike. */
  lemma {:induction false} PrepareFailStops(t: Table, fs: seq<Field>, n: nat)
    requires n <= |fs| && PrepareAll(t, fs[..n]).Err?
    ensures PrepareAll(t, fs) == PrepareAll(t, fs[..n])
    decreases |fs| - n
  {
    if n < |fs| {
      assert fs[..n + 1][..n] == fs[..n];
      PrepareFailStops(t, fs, n + 1);
    } else {
      assert fs[..n] == fs;
    }
  }

  // ---------------------------------------------------------------------
  // Axis configuration

  /** A Python dict of aggregations: its keys are distinct. */
  type Aggregations = d: Dict<Field, GroupBy> | DistinctKeys(d) witness []

  datatype AxisConfig = AxisConfig(fields: seq<Field>, aggregations: Aggregations,
                                   xAxis: Field, yAxis: Field)

  /** `[Field(field) for field in selected_fields]`. */
  function ParseFields(ss: seq<string>): (r: Result<seq<Field>>)
    ensures r.Ok? <==> forall k :: 0 <= k < |ss| ==> FieldOf(ss[k]).Ok?
    ensures r.Ok? ==> |r.value| == |ss| && forall k :: 0 <= k < |ss| ==> FieldValue(r.value[k]) == ss[k]
    ensures r.Err? ==> r.error.ValueError?
    decreases |ss|
  {
    if |ss| == 0 then Ok([])
    else
      var f :- FieldOf(ss[0]);
      var rest := ParseFields(ss[1..]);
      assert forall k :: 0 < k < |ss| ==> ss[k] == ss[1..][k - 1];
      if rest.Err? then Err(rest.error) else Ok([f] + rest.value)
  }

  /** `zip(fields, selected_aggregations)` with each aggregation parsed:
      as long as the shorter list, pairing by position. */
  function ZipAggregations(fs: seq<Field>, aggs: seq<string>): (r: Result<seq<(Field, GroupBy)>>)
    ensures var n := if |fs| < |aggs| then |fs| else |aggs|;
      (r.Ok? <==> forall k :: 0 <= k < n ==> GroupByOf(aggs[k]).Ok?) &&
      (r.Ok? ==> |r.value| == n && forall k :: 0 <= k < n ==> r.value[k] == (fs[k], GroupByOf(aggs[k]).value))
    ensures r.Err? ==> r.error.ValueError?
    decreases |fs|
  {
    if |fs| == 0 || |aggs| == 0 then Ok([])
    else
      var g :- GroupByOf(aggs[0]);
      var rest := ZipAggregations(fs[1..], aggs[1..]);
      assert forall k :: 0 < k < |fs| ==> fs[k] == fs[1..][k - 1];
      assert forall k :: 0 < k < |aggs| ==> aggs[k] == aggs[1..][k - 1];
      if rest.Err? then Err(rest.error) else Ok([(fs[0], g)] + rest.value)
  }

  /** `AxisConfig.from_raw`. The field names are parsed first, then at least
      two fields are unpacked, then the aggregations are parsed, and last the
      axis order is checked: [Y, X] puts the first field on y, [X, Y] on x. */
  function AxisFromRaw(selectedFields: seq<string>, selectedAxes: seq<string>, selectedAggs: seq<string>)
    : (r: Result<AxisConfig>)
    ensures r.Ok? ==> ParseFields(selectedFields) == Ok(r.value.fields) && |r.value.fields| >= 2
    ensures r.Ok? ==> selectedAxes == [YAxisText, XAxisText] || selectedAxes == [XAxisText, YAxisText]
    ensures r.Ok? && selectedAxes == [YAxisText, XAxisText] ==>
      r.value.yAxis == r.value.fields[0] && r.value.xAxis == r.value.fields[1]
    ensures r.Ok? && selectedAxes == [XAxisText, YAxisText] ==>
      r.value.xAxis == r.value.fields[0] && r.value.yAxis == r.value.fields[1]
    ensures ParseFields(selectedFields).Ok? && |selectedFields| < 2 ==> r == Err(UnpackError)
    ensures r.Ok? ==> (ZipAggregations(r.value.fields, selectedAggs).Ok? &&
      r.value.aggregations == FromPairs(ZipAggregations(r.value.fields, selectedAggs).value))
    ensures r.Err? ==> r.error.ValueError?
  {
    var fields :- ParseFields(selectedFields);
    if |fields| < 2 then Err(UnpackError)
    else
      var pairs :- ZipAggregations(fields, selectedAggs);
      FromPairsDistinct(pairs);
      var aggregations: Aggregations := FromPairs(pairs);
      if selectedAxes == [YAxisText, XAxisText] then Ok(AxisConfig(fields, aggregations, fields[1], fields[0]))
      else if selectedAxes == [XAxisText, YAxisText] then Ok(AxisConfig(fields, aggregations, fields[0], fields[1]))
      else Err(ValueError("Invalid axes"))
  }

  /** Well-formed field and aggregation names with an axis order other than
      [Y, X] or [X, Y] are rejected. */
  lemma InvalidAxes(selectedFields: seq<string>, selectedAxes: seq<string>, selectedAggs: seq<string>)
    requires ParseFields(selectedFields).Ok? && |selectedFields| >= 2
    requires ZipAggregations(ParseFields(selectedFields).value, selectedAggs).Ok?
    requires selectedAxes != [YAxisText, XAxisText] && selectedAxes != [XAxisText, YAxisText]
    ensures AxisFromRaw(selectedFields, selectedAxes, selectedAggs) == Err(ValueError("Invalid axes"))
  {
  }

  /** The zipped pairs hold exactly the fields among the first `n`. */
  lemma ZipKeys(fs: seq<Field>, aggs: seq<string>, f: Field)
    requires ZipAggregations(fs, aggs).Ok?
    ensures var n := if |fs| < |aggs| then |fs| else |aggs|;
      HasKey(ZipAggregations(fs, aggs).value, f) <==> f in fs[..n]
  {
    var pairs := ZipAggregations(fs, aggs).value;
    var n := if |fs| < |aggs| then |fs| else |aggs|;
    if HasKey(pairs, f) {
      var i :| 0 <= i < |pairs| && pairs[i].0 == f;
      assert fs[..n][i] == f;
    }
    if f in fs[..n] {
      var i :| 0 <= i < n && fs[..n][i] == f;
      assert pairs[i].0 == f;
    }
  }

  /** With distinct fields the k-th field is paired with the k-th aggregation. */
  lemma ZipGet(fs: seq<Field>, aggs: seq<string>, k: nat)
    requires ZipAggregations(fs, aggs).Ok? && Sorting.Distinct(fs) && k < |fs| && k < |aggs|
    ensures DistinctKeys(ZipAggregations(fs, aggs).value)
    ensures Get(ZipAggregations(fs, aggs).value, fs[k]) == Some(GroupByOf(aggs[k]).value)
  {
    var pairs := ZipAggregations(fs, aggs).value;
    forall i, j | 0 <= i < j < |pairs| ensures pairs[i].0 != pairs[j].0 {
      assert pairs[i].0 == fs[i] && pairs[j].0 == fs[j];
    }
    assert pairs[k] == (fs[k], GroupByOf(aggs[k]).value);
    var g := Get(pairs, fs[k]);
    var i :| 0 <= i < |pairs| && pairs[i] == (fs[k], g.value);
    assert fs[i] == fs[k];
  }

  /** The aggregation dict pairs fields with aggregations by position and is
      cut to the shorter list: a field is aggregated exactly when it is among
      the first `n` fields, and with distinct fields the k-th field gets the
      k-th aggregation. */
  lemma AggregationsPositional(selectedFields: seq<string>, selectedAxes: seq<string>, selectedAggs: seq<string>, f: Field)
    requires AxisFromRaw(selectedFields, selectedAxes, selectedAggs).Ok?
    ensures var a := AxisFromRaw(selectedFields, selectedAxes, selectedAggs).value;
      var n := if |a.fields| < |selectedAggs| then |a.fields| else |selectedAggs|;
      DistinctKeys(a.aggregations) &&
      (HasKey(a.aggregations, f) <==> f in a.fields[..n]) &&
      (Sorting.Distinct(a.fields) ==> forall k :: 0 <= k < n ==>
        Get(a.aggregations, a.fields[k]) == Some(GroupByOf(selectedAggs[k]).value))
  {
    var a := AxisFromRaw(selectedFields, selectedAxes, selectedAggs).value;
    var pairs := ZipAggregations(a.fields, selectedAggs).value;
    var n := if |a.fields| < |selectedAggs| then |a.fields| else |selectedAggs|;
    assert a.aggregations == FromPairs(pairs);
    FromPairsDistinct(pairs);
    FromPairsKeys(pairs, f);
    ZipKeys(a.fields, selectedAggs, f);
    if Sorting.Distinct(a.fields) {
      forall k | 0 <= k < n
        ensures Get(a.aggregations, a.fields[k]) == Some(GroupByOf(selectedAggs[k]).value)
      {
        ZipGet(a.fields, selectedAggs, k);
        FromPairsGet(pairs, a.fields[k]);
      }
    }
  }

  // ---------------------------------------------------------------------
  // Figure configuration

  datatype SortConfig = SortConfig(ascending: bool, axis: string)

  /** `SortConfig.from_raw` as written: evaluating `Text.ASCENDING` raises,
      because the text enum defines no such member. */
  function SortFromRawAsWritten(order: string, axis: string): (r: Result<SortConfig>)
    ensures r.Err? && r.error == AttributeError("ASCENDING")
  {
    Err(AttributeError("ASCENDING"))
  }

  /** `SortConfig.from_raw` with the ascending text as a parameter: the order
      is ascending exactly when the raw order is that text. */
  function SortFromRaw(order: string, axis: string, ascendingText: string): (r: SortConfig)
    ensures r.ascending <==> order == ascendingText
    ensures r.axis == axis
  {
    SortConfig(order == ascendingText, axis)
  }

  /** No raw order reaches a sort configuration through the code as written. */
  lemma SortAsWrittenAlwaysFails(order: string, axis: string)
    ensures SortFromRawAsWritten(order, axis).Err?
  {
  }

  datatype FigureConfig = FigureConfig(
    title: Option<string>, xLabel: Option<string>, yLabel: Option<string>,
    xLog: bool, yLog: bool, movingAverages: seq<Value>, sort: Option<SortConfig>)

  /** Python truthiness of an optional string. */
  predicate Given(s: Option<string>) { s.Some? && s.value != "" }

  /** The windows whose box is ticked, in dict order. */
  function EnabledWindows(windows: Dict<Value, bool>): (r: seq<Value>)
    ensures |r| <= |windows|
    ensures forall w :: w in r <==> exists i :: 0 <= i < |windows| && windows[i] == (w, true)
    decreases |windows|
  {
    if |windows| == 0 then []
    else
      var init := windows[..|windows| - 1];
      var rest := EnabledWindows(init);
      assert forall i :: 0 <= i < |init| ==> init[i] == windows[i];
      if windows[|windows| - 1].1 then rest + [windows[|windows| - 1].0] else rest
  }

  /** `int(window)` on each enabled window. */
  function IntWindows(ws: seq<Value>): (r: Result<seq<Value>>)
    ensures r.Ok? <==> forall k :: 0 <= k < |ws| ==> PyInt(ws[k]).Ok?
    ensures r.Ok? ==> |r.value| == |ws| && forall k :: 0 <= k < |ws| ==> r.value[k] == VInt(PyInt(ws[k]).value)
    decreases |ws|
  {
    if |ws| == 0 then Ok([])
    else
      var i :- PyInt(ws[0]);
      var rest := IntWindows(ws[1..]);
      assert forall k :: 0 < k < |ws| ==> ws[k] == ws[1..][k - 1];
      if rest.Err? then Err(rest.error) else Ok([VInt(i)] + rest.value)
  }

  /** `FigureConfig.from_raw`, built on the corrected `SortFromRaw` (the
      code as written raises on every sort; see `FigureFromRawAsWritten`).
      The core copy converts each enabled window with `int`, the dashboard
      copy keeps it as given. A sort configuration exists exactly when both
      the order and the axis are given. */
  function FigureFromRaw(gen: Generation, title: Option<string>, xLabel: Option<string>, yLabel: Option<string>,
                         xLog: bool, yLog: bool, windows: Dict<Value, bool>,
                         sortOrder: Option<string>, sortAxis: Option<string>, ascendingText: string)
    : (r: Result<FigureConfig>)
    ensures gen == Dashboard ==> r.Ok? && r.value.movingAverages == EnabledWindows(windows)
    ensures gen == Core ==> r.Ok? == IntWindows(EnabledWindows(windows)).Ok?
    ensures gen == Core && r.Ok? ==> r.value.movingAverages == IntWindows(EnabledWindows(windows)).value
    ensures r.Ok? ==> r.value.title == title && r.value.xLabel == xLabel && r.value.yLabel == yLabel
    ensures r.Ok? ==> r.value.xLog == xLog && r.value.yLog == yLog
    ensures r.Ok? ==> (r.value.sort.Some? <==> Given(sortOrder) && Given(sortAxis))
    ensures r.Ok? && r.value.sort.Some? ==>
      r.value.sort.value.axis == sortAxis.value && (r.value.sort.value.ascending <==> sortOrder.value == ascendingText)
  {
    var enabled := EnabledWindows(windows);
    var ws :- if gen == Core then IntWindows(enabled) else Ok(enabled);
    var sort := if Given(sortOrder) && Given(sortAxis) then Some(SortFromRaw(sortOrder.value, sortAxis.value, ascendingText)) else None;
    Ok(FigureConfig(title, xLabel, yLabel, xLog, yLog, ws, sort))
  }

  /** `FigureConfig.from_raw` as written: the sort goes through
      `SortFromRawAsWritten`, after the windows are converted. */
  function FigureFromRawAsWritten(gen: Generation, title: Option<string>, xLabel: Option<string>, yLabel: Option<string>,
                                  xLog: bool, yLog: bool, windows: Dict<Value, bool>,
                                  sortOrder: Option<string>, sortAxis: Option<string>)
    : (r: Result<FigureConfig>)
    ensures Given(sortOrder) && Given(sortAxis) ==> r.Err?
  {
    var enabled := EnabledWindows(windows);
    var ws :- if gen == Core then IntWindows(enabled) else Ok(enabled);
    var sort :- if Given(sortOrder) && Given(sortAxis) then
        match SortFromRawAsWritten(sortOrder.value, sortAxis.value)
        case Ok(c) => Ok(Some(c))
        case Err(e) => Err(e)
      else Ok(None);
    Ok(FigureConfig(title, xLabel, yLabel, xLog, yLog, ws, sort))
  }

  /** The code as written raises whenever both the order and the axis are
      given; without a sort it agrees with the corrected copy. */
  lemma FigureAsWrittenFails(gen: Generation, title: Option<string>, xLabel: Option<string>, yLabel: Option<string>,
                             xLog: bool, yLog: bool, windows: Dict<Value, bool>,
                             sortOrder: Option<string>, sortAxis: Option<string>, ascendingText: string)
    ensures Given(sortOrder) && Given(sortAxis) && IntWindows(EnabledWindows(windows)).Ok? ==>
      FigureFromRawAsWritten(gen, title, xLabel, yLabel, xLog, yLog, windows, sortOrder, sortAxis) == Err(AttributeError("ASCENDING"))
    ensures !(Given(sortOrder) && Given(sortAxis)) ==>
      FigureFromRawAsWritten(gen, title, xLabel, yLabel, xLog, yLog, windows, sortOrder, sortAxis) ==
      FigureFromRaw(gen, title, xLabel, yLabel, xLog, yLog, windows, sortOrder, sortAxis, ascendingText)
  {
  }

  /** The enabled windows keep their dict order: a window enabled before
      another comes before it. */
  lemma {:induction false} EnabledWindowsOrder(windows: Dict<Value, bool>, i: nat, j: nat)
    requires DistinctKeys(windows) && i < j < |windows| && windows[i].1 && windows[j].1
    ensures exists a, b :: (0 <= a < b < |EnabledWindows(windows)| &&
      EnabledWindows(windows)[a] == windows[i].0 && EnabledWindows(windows)[b] == windows[j].0)
    decreases |windows|
  {
    var init := windows[..|windows| - 1];
    assert forall m :: 0 <= m < |init| ==> init[m] == windows[m];
    if j < |windows| - 1 {
      EnabledWindowsOrder(init, i, j);
      var a, b :| 0 <= a < b < |EnabledWindows(init)| &&
        EnabledWindows(init)[a] == windows[i].0 && EnabledWindows(init)[b] == windows[j].0;
      var r := EnabledWindows(windows);
      assert r[..|EnabledWindows(init)|] == EnabledWindows(init);
      assert r[a] == windows[i].0 && r[b] == windows[j].0;
    } else {
      assert windows[i] == init[i];
      assert windows[i].0 in EnabledWindows(init);
      var a :| 0 <= a < |EnabledWindows(init)| && EnabledWindows(init)[a] == windows[i].0;
      var r := EnabledWindows(windows);
      assert r == EnabledWindows(init) + [windows[j].0];
      assert r[a] == windows[i].0 && r[|r| - 1] == windows[j].0;
    }
  }

  // ---------------------------------------------------------------------
  // Labels

  /** `field.axis_label` for label type "axis", `field.title_label` otherwise. */
  function BaseLabel(f: Field, labelType: string): Option<string> {
    if labelType == "axis" then AxisLabel(f) else TitleLabel(f)
  }

  function PrefixFor(g: GroupBy, labelType: string): string {
    if labelType == "axis" then AxisPrefix(g) else TitlePrefix(g)
  }

  /** An f-string renders `None` as the text "None". */
  function Render(s: Option<string>): string {
    if s.Some? then s.value else "None"
  }

  /** The custom label that applies to a field: x's first, then y's. */
  function Override(axis: AxisConfig, fig: FigureConfig, f: Field): Option<string> {
    if f == axis.xAxis && Given(fig.xLabel) then fig.xLabel
    else if f == axis.yAxis && Given(fig.yLabel) then fig.yLabel
    else None
  }

  /** `get_label`. The core copy formats the prefix and the base label with
      an f-string; the dashboard copy concatenates them, which is a TypeError
      on a field without a base label. */
  function GetLabel(gen: Generation, axis: AxisConfig, fig: FigureConfig, f: Field, labelType: string)
    : (r: Result<Option<string>>)
    ensures gen == Core ==> r.Ok?
  {
    var custom := Override(axis, fig, f);
    if custom.Some? then Ok(custom)
    else
      var base := BaseLabel(f, labelType);
      match Get(axis.aggregations, f)
      case None => Ok(base)
      case Some(g) =>
        if gen == Core then Ok(Some(PrefixFor(g, labelType) + Render(base)))
        else if base.None? then Err(TypeError)
        else Ok(Some(PrefixFor(g, labelType) + base.value))
  }

  /** Label precedence: a custom x label for the x field, else a custom y
      label for the y field, else the catalog label, behind the aggregation's
      prefix when the field is aggregated. The result is `None` only for an
      unaggregated internal field without a custom label. */
  lemma GetLabelPrecedence(gen: Generation, axis: AxisConfig, fig: FigureConfig, f: Field, labelType: string)
    ensures f == axis.xAxis && Given(fig.xLabel) ==> GetLabel(gen, axis, fig, f, labelType) == Ok(fig.xLabel)
    ensures !(f == axis.xAxis && Given(fig.xLabel)) && f == axis.yAxis && Given(fig.yLabel) ==>
      GetLabel(gen, axis, fig, f, labelType) == Ok(fig.yLabel)
    ensures Override(axis, fig, f).None? && !HasKey(axis.aggregations, f) ==>
      GetLabel(gen, axis, fig, f, labelType) == Ok(BaseLabel(f, labelType))
    ensures Override(axis, fig, f).None? && HasKey(axis.aggregations, f) && BaseLabel(f, labelType).Some? ==>
      GetLabel(gen, axis, fig, f, labelType) ==
        Ok(Some(PrefixFor(Get(axis.aggregations, f).value, labelType) + BaseLabel(f, labelType).value))
    ensures GetLabel(gen, axis, fig, f, labelType) == Ok(None) <==>
      Override(axis, fig, f).None? && !HasKey(axis.aggregations, f) && f in {Datetime, Reactions}
  {
    InternalFieldsUnlabelled(f);
    LabelsFallBack(f);
  }

  /** The two copies differ only on an aggregated field without a base
      label: the core copy writes "None" behind the prefix, the dashboard
      copy raises. */
  lemma LabelCopiesAgree(axis: AxisConfig, fig: FigureConfig, f: Field, labelType: string)
    ensures GetLabel(Dashboard, axis, fig, f, labelType).Ok? ==>
      GetLabel(Dashboard, axis, fig, f, labelType) == GetLabel(Core, axis, fig, f, labelType)
    ensures GetLabel(Dashboard, axis, fig, f, labelType).Err? <==>
      Override(axis, fig, f).None? && HasKey(axis.aggregations, f) && f in {Datetime, Reactions}
  {
    InternalFieldsUnlabelled(f);
    LabelsFallBack(f);
  }

  // ---------------------------------------------------------------------
  // Filters

  datatype FilterGroup = FilterGroup(field: Field, op: Operator, value: Value)

  /** The mask of one filter group, as a predicate on rows. */
  function Keeps(g: FilterGroup): Row -> bool {
    (row: Row) => Holds(g.op, Cell(row, FieldValue(g.field)), g.value) == Ok(true)
  }

  /** `FilterGroup.apply`: `df[operator(df[field], value)]`. */
  function ApplyGroup(t: Table, g: FilterGroup): (r: Result<Table>)
    ensures FieldValue(g.field) !in t.columns ==> r == Err(KeyError(FieldValue(g.field)))
    ensures r.Ok? <==> FieldValue(g.field) in t.columns && Mask(g.op, Column(t, FieldValue(g.field)), g.value).Ok?
    ensures r.Ok? ==> r.value == Table(t.columns, Where(t.rows, Keeps(g)))
  {
    var col :- GetColumn(t, FieldValue(g.field));
    var mask :- Mask(g.op, col, g.value);
    Ok(FilterTable(t, Keeps(g)))
  }

  /** `FilterConfig.apply`: the groups in turn, stopping at the first failure. */
  function ApplyAll(t: Table, gs: seq<FilterGroup>): (r: Result<Table>)
    ensures r.Ok? ==> r.value.columns == t.columns
    decreases |gs|
  {
    if |gs| == 0 then Ok(t)
    else
      var prev :- ApplyAll(t, gs[..|gs| - 1]);
      ApplyGroup(prev, gs[|gs| - 1])
  }

  /** A row passes when every group keeps it. */
  predicate PassesAll(gs: seq<FilterGroup>, row: Row) {
    forall k :: 0 <= k < |gs| ==> Keeps(gs[k])(row)
  }

  function KeepsAll(gs: seq<FilterGroup>): Row -> bool {
    (row: Row) => PassesAll(gs, row)
  }

  lemma PassesAllSnoc(gs: seq<FilterGroup>, row: Row)
    requires |gs| > 0
    ensures PassesAll(gs, row) <==> PassesAll(gs[..|gs| - 1], row) && Keeps(gs[|gs| - 1])(row)
  {
    var init := gs[..|gs| - 1];
    if PassesAll(gs, row) {
      forall m | 0 <= m < |init| ensures Keeps(init[m])(row) {
        assert init[m] == gs[m];
      }
    }
    if PassesAll(init, row) && Keeps(gs[|gs| - 1])(row) {
      forall m | 0 <= m < |gs| ensures Keeps(gs[m])(row) {
        if m < |init| {
          assert init[m] == gs[m];
        }
      }
    }
  }

  /** Applying the groups in turn keeps exactly the rows that satisfy every
      group, in their original order, and keeps the columns. */
  lemma {:induction false} ApplyAllRows(t: Table, gs: seq<FilterGroup>)
    requires ApplyAll(t, gs).Ok?
    ensures ApplyAll(t, gs).value == Table(t.columns, Where(t.rows, KeepsAll(gs)))
    decreases |gs|
  {
    if |gs| == 0 {
      WhereExt(t.rows, KeepsAll(gs), (row: Row) => true);
      WhereAll(t.rows);
    } else {
      var init := gs[..|gs| - 1];
      var last := gs[|gs| - 1];
      ApplyAllRows(t, init);
      var prev := ApplyAll(t, init).value;
      assert ApplyAll(t, gs) == ApplyGroup(prev, last);
      assert ApplyAll(t, gs).value.rows == Where(Where(t.rows, KeepsAll(init)), Keeps(last));
      WhereCompose(t.rows, KeepsAll(init), Keeps(last));
      forall k | 0 <= k < |t.rows|
        ensures (KeepsAll(init)(t.rows[k]) && Keeps(last)(t.rows[k])) == KeepsAll(gs)(t.rows[k])
      {
        PassesAllSnoc(gs, t.rows[k]);
      }
      WhereExt(t.rows, (row: Row) => KeepsAll(init)(row) && Keeps(last)(row), KeepsAll(gs));
    }
  }

  /** A mask that holds everywhere keeps every row. */
  lemma {:induction false} WhereAll(rows: seq<Row>)
    ensures Where(rows, (row: Row) => true) == rows
    decreases |rows|
  {
    if |rows| > 0 {
      WhereAll(rows[1..]);
    }
  }

  /** The loop of `FilterConfig.apply`. */
  method ApplyFilters(t: Table, gs: seq<FilterGroup>) returns (r: Result<Table>)
    ensures r == ApplyAll(t, gs)
  {
    var df := t;
    var i := 0;
    while i < |gs|
      invariant 0 <= i <= |gs|
      invariant ApplyAll(t, gs[..i]) == Ok(df)
    {
      assert gs[..i + 1][..i] == gs[..i];
      var next := ApplyGroup(df, gs[i]);
      if next.Err? {
        ApplyFailStops(t, gs, i + 1);
        return next;
      }
      df := next.value;
      i := i + 1;
    }
    assert gs[..i] == gs;
    return Ok(df);
  }

  lemma {:induction false} ApplyFailStops(t: Table, gs: seq<FilterGroup>, n: nat)
    requires n <= |gs| && ApplyAll(t, gs[..n]).Err?
    ensures ApplyAll(t, gs) == ApplyAll(t, gs[..n])
    decreases |gs| - n
  {
    if n < |gs| {
      assert gs[..n + 1][..n] == gs[..n];
      ApplyFailStops(t, gs, n + 1);
    } else {
      assert gs[..n] == gs;
    }
  }

  /** The fields the filter groups read, in order. */
  function FilterFields(gs: seq<FilterGroup>): (r: seq<Field>)
    ensures |r| == |gs| && forall k :: 0 <= k < |gs| ==> r[k] == gs[k].field
  {
    seq(|gs|, k requires 0 <= k < |gs| => gs[k].field)
  }

  /** `zip(filter_types, filter_operators, filter_values)`. */
  function Triples(types: seq<string>, ops: seq<string>, values: seq<Value>): (r: seq<(string, string, Value)>)
    ensures |r| <= |types| && |r| <= |ops| && |r| <= |values|
    ensures |r| == |types| || |r| == |ops| || |r| == |values|
    ensures forall k :: 0 <= k < |r| ==> r[k] == (types[k], ops[k], values[k])
  {
    var n := if |types| <= |ops| && |types| <= |values| then |types|
             else if |ops| <= |values| then |ops| else |values|;
    seq(n, k requires 0 <= k < n => (types[k], ops[k], values[k]))
  }

  /** The triples whose value is truthy (`if value`), in order. */
  function NonEmpty(ts: seq<(string, string, Value)>): (r: seq<(string, string, Value)>)
    ensures |r| <= |ts|
    ensures forall x :: x in r <==> x in ts && Truthy(x.2)
    decreases |ts|
  {
    if |ts| == 0 then []
    else
      var init := ts[..|ts| - 1];
      var rest := NonEmpty(init);
      assert ts == init + [ts[|ts| - 1]];
      if Truthy(ts[|ts| - 1].2) then rest + [ts[|ts| - 1]] else rest
  }

  /** One `FilterGroup(...)` of the comprehension: the field name, the
      operator, the filter type and the post-processed value, in that order. */
  function ParseGroup(tr: (string, string, Value)): (r: Result<FilterGroup>)
    ensures r.Ok? ==> FieldOf(tr.0) == Ok(r.value.field) && OperatorOf(tr.1) == Ok(r.value.op)
    ensures r.Ok? ==> FilterOf(tr.0).Ok? && r.value.field == FilterField(FilterOf(tr.0).value)
    ensures r.Ok? ==> PostProcess(FilterOf(tr.0).value, tr.2) == Ok(r.value.value)
    ensures FieldOf(tr.0).Ok? && OperatorOf(tr.1).Ok? && FilterOf(tr.0).Err? ==> r == Err(FilterOf(tr.0).error)
  {
    var f :- FieldOf(tr.0);
    var op :- OperatorOf(tr.1);
    var ft :- FilterOf(tr.0);
    var v :- PostProcess(ft, tr.2);
    FilterFieldOfValue(ft, f, tr.0);
    Ok(FilterGroup(f, op, v))
  }

  lemma FilterFieldOfValue(ft: Filter, f: Field, s: string)
    requires FieldOf(s) == Ok(f) && FilterOf(s) == Ok(ft)
    ensures FilterField(ft) == f
  {
  }

  function ParseGroups(ts: seq<(string, string, Value)>): (r: Result<seq<FilterGroup>>)
    ensures r.Ok? <==> forall k :: 0 <= k < |ts| ==> ParseGroup(ts[k]).Ok?
    ensures r.Ok? ==> |r.value| == |ts| && forall k :: 0 <= k < |ts| ==> r.value[k] == ParseGroup(ts[k]).value
    decreases |ts|
  {
    if |ts| == 0 then Ok([])
    else
      var g :- ParseGroup(ts[0]);
      var rest := ParseGroups(ts[1..]);
      assert forall k :: 0 < k < |ts| ==> ts[k] == ts[1..][k - 1];
      if rest.Err? then Err(rest.error) else Ok([g] + rest.value)
  }

  /** `FilterConfig.from_raw`. */
  function FilterFromRaw(types: seq<string>, ops: seq<string>, values: seq<Value>): (r: Result<seq<FilterGroup>>)
    ensures r.Ok? ==> |r.value| <= |types| && |r.value| <= |ops| && |r.value| <= |values|
    ensures (forall k :: 0 <= k < |values| ==> !Truthy(values[k])) ==> r == Ok([])
  {
    ParseGroups(NonEmpty(Triples(types, ops, values)))
  }

  /** Parsed filters come one per truthy-valued triple, in order. Each
      targets one of the five filterable fields, and an HOUR filter holds an
      integer and a DATE filter a date. */
  lemma FilterFromRawSpec(types: seq<string>, ops: seq<string>, values: seq<Value>)
    requires FilterFromRaw(types, ops, values).Ok?
    ensures var kept := NonEmpty(Triples(types, ops, values));
      var r := FilterFromRaw(types, ops, values).value;
      |r| == |kept| &&
      (forall k :: 0 <= k < |r| ==> (Truthy(kept[k].2) && FieldValue(r[k].field) == kept[k].0 &&
        OperatorValue(r[k].op) == kept[k].1)) &&
      (forall k :: 0 <= k < |r| ==> r[k].field in {Date, Author, ChannelName, Hour, ReactionCount}) &&
      (forall k :: 0 <= k < |r| && r[k].field == Hour ==> r[k].value.VInt?) &&
      (forall k :: 0 <= k < |r| && r[k].field == Date ==> r[k].value.VDate?)
  {
    var kept := NonEmpty(Triples(types, ops, values));
    var r := FilterFromRaw(types, ops, values).value;
    forall k | 0 <= k < |r|
      ensures Truthy(kept[k].2) && FieldValue(r[k].field) == kept[k].0 && OperatorValue(r[k].op) == kept[k].1
      ensures r[k].field in {Date, Author, ChannelName, Hour, ReactionCount}
      ensures r[k].field == Hour ==> r[k].value.VInt?
      ensures r[k].field == Date ==> r[k].value.VDate?
    {
      assert kept[k] in kept;
      var ft := FilterOf(kept[k].0).value;
      assert r[k].field == FilterField(ft);
    }
  }

  /** Filters with a falsy value are dropped without being parsed: a triple
      whose value is falsy never causes an error. */
  lemma EmptyValuesIgnored(types: seq<string>, ops: seq<string>, values: seq<Value>)
    requires forall k :: 0 <= k < |values| ==> !Truthy(values[k])
    ensures FilterFromRaw(types, ops, values) == Ok([])
  {
    var ts := Triples(types, ops, values);
    assert forall x :: x in ts ==> !Truthy(x.2);
  }
}
