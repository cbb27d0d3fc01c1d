/** The step-list plot builder: calls only record steps, and `build` replays
    them from an empty table each time. A step is a field to join, an
    aggregation of the second column grouped by the first, a mutator (value
    counts, or a sort by one named column) or a chart of the two columns. */
module RpPlotBuilder {
  import opened Wrappers
  import opened Values
  import opened Tables
  import Grouping
  import Sorting

  datatype Field =
    | AuthorId | Author | Date | Hour | Day | Content | Attachments | Reactions
    | ReactionCount | WordCount | ChannelName | SceneId

  function FieldValue(f: Field): string {
    match f
    case AuthorId => "authorId"
    case Author => "author"
    case Date => "date"
    case Hour => "hour"
    case Day => "day"
    case Content => "content"
    case Attachments => "attachments"
    case Reactions => "reactions"
    case ReactionCount => "reactionCount"
    case WordCount => "wordCount"
    case ChannelName => "channelName"
    case SceneId => "sceneId"
  }

  datatype GroupBy = Sum | Mean | Count | Nunique

  function Reduce(g: GroupBy): (r: Grouping.Agg)
    ensures Grouping.AggName(r) == GroupByValue(g)
  {
    match g
    case Sum => Grouping.Sum
    case Mean => Grouping.Mean
    case Count => Grouping.Count
    case Nunique => Grouping.Nunique
  }

  function GroupByValue(g: GroupBy): string {
    match g
    case Sum => "sum"
    case Mean => "mean"
    case Count => "count"
    case Nunique => "nunique"
  }

  datatype Mutator = ValueCounts | Ascending | Descending

  datatype Plot = Bar | Scatter | Line

  /** A recorded step with the extra arguments it was added with. */
  datatype Step =
    | FieldStep(field: Field, fieldArgs: seq<string>)
    | GroupByStep(agg: GroupBy, groupArgs: seq<string>)
    | PlotStep(plot: Plot, plotArgs: seq<string>)
    | MutatorStep(mutator: Mutator, args: seq<string>)

  /** The chart call: the table with its first column as x and its second
      as y. */
  datatype Figure = Figure(plot: Plot, table: Table, x: string, y: string)

  /** What a replay holds between steps: a table (with whether a sort has
      reordered its rows away from the source's index), or the chart once
      a plot step has run. */
  datatype Current = Frame(table: Table, permuted: bool) | Chart(figure: Figure)

  const Empty: Current := Frame(Table([], []), false)

  // ---------------------------------------------------------------------
  // One step

  /** `_field`: the derived fields are read off the "date" timestamps and
      keep that series' name, "date"; other fields are the source column. */
  function FieldSeries(source: Table, f: Field): (r: Result<(string, seq<Value>)>)
    ensures r.Ok? ==> |r.value.1| == |source.rows|
    ensures r.Ok? ==> r.value.0 == (if f in {Hour, Day, Date} then "date" else FieldValue(f))
    ensures f !in {Hour, Day, Date} ==> (r.Ok? <==> FieldValue(f) in source.columns)
    ensures r.Ok? ==> forall k :: 0 <= k < |source.rows| ==>
      var ts := Column(source, "date")[k];
      (f == Hour ==> ts.VTime? && r.value.1[k] == VInt(ts.t.hour)) &&
      (f == Day ==> ts.VTime? && r.value.1[k] == VInt(ts.t.date.day)) &&
      (f == Date ==> ts.VTime? && r.value.1[k] == VDate(ts.t.date)) &&
      (f !in {Hour, Day, Date} ==> r.value.1[k] == Column(source, FieldValue(f))[k])
  {
    if f == Hour then
      var col :- GetColumn(source, "date");
      var vals :- MapCells(col, HourOf);
      Ok(("date", vals))
    else if f == Day then
      var col :- GetColumn(source, "date");
      var vals :- MapCells(col, DayOf);
      Ok(("date", vals))
    else if f == Date then
      var col :- GetColumn(source, "date");
      var vals :- MapCells(col, CalendarDateOf);
      Ok(("date", vals))
    else
      var col :- GetColumn(source, FieldValue(f));
      Ok((FieldValue(f), col))
  }

  /** `pd.concat([current, series], axis=1)`: the series becomes a new last
      column. pandas joins on the index; the table model represents the
      join only where it lines up row by row. */
  function Concat(t: Table, permuted: bool, name: string, vals: seq<Value>): (r: Result<Table>)
    ensures r.Ok? ==> r.value.columns == t.columns + [name] && Column(r.value, name) == vals
    ensures r.Ok? ==> forall c :: c in t.columns ==> Column(r.value, c) == Column(t, c)
    ensures r.Err? ==> r.error.Unmodelled?
    ensures t.columns == [] ==> r.Ok?
    ensures t.columns != [] && !permuted && |t.rows| == |vals| && name !in t.columns ==> r.Ok?
  {
    if t.columns == [] then
      var r := Table([name], seq(|vals|, k requires 0 <= k < |vals| => map[name := vals[k]]));
      assert Column(r, name) == vals;
      Ok(r)
    else if name in t.columns then Err(Unmodelled("duplicate column names"))
    else if permuted || |t.rows| != |vals| then Err(Unmodelled("index alignment"))
    else
      SetColumnSpec(t, name, vals);
      Ok(SetColumn(t, name, vals))
  }

  /** One step of `build`. */
  function Interpret(source: Table, current: Current, step: Step): (r: Result<Current>)
    ensures current.Chart? ==> r.Err?
    ensures r.Ok? && r.value.Chart? ==> step.PlotStep?
  {
    match current
    case Chart(_) => Err(Unmodelled("a step applied to a figure"))
    case Frame(t, permuted) =>
      match step
      case FieldStep(f, _) =>
        var (name, vals) :- FieldSeries(source, f);
        var joined :- Concat(t, permuted, name, vals);
        Ok(Frame(joined, permuted))
      case GroupByStep(g, _) =>
        if |t.columns| != 2 then Err(UnpackError)
        else if t.columns[0] == t.columns[1] then Err(Unmodelled("duplicate column names"))
        else
          var grouped :- Grouping.GroupBy(t, t.columns[0], [(t.columns[1], Reduce(g))]);
          Ok(Frame(grouped, false))
      case PlotStep(p, _) =>
        if |t.columns| != 2 then Err(UnpackError)
        else Ok(Chart(Figure(p, t, t.columns[0], t.columns[1])))
      case MutatorStep(ValueCounts, _) =>
        if |t.columns| != 1 then Err(UnpackError)
        else
          var counts :- Grouping.ValueCountsByValue(t, t.columns[0]);
          Ok(Frame(counts, false))
      case MutatorStep(m, args) =>
        if |args| != 1 then Err(UnpackError)
        else
          var sorted :- SortTable(t, args[0], m == Ascending);
          Ok(Frame(sorted, true))
  }

  /** `build()`: replay the steps in order from the empty table; the first
      exception ends the replay. */
  function Replay(source: Table, steps: seq<Step>): (r: Result<Current>)
    ensures r.Ok? && r.value.Chart? ==> |steps| > 0 && steps[|steps| - 1].PlotStep?
    decreases |steps|
  {
    if |steps| == 0 then Ok(Empty)
    else
      var prev :- Replay(source, steps[..|steps| - 1]);
      Interpret(source, prev, steps[|steps| - 1])
  }

  /** The value `build` returns: the table, or the figure. */
  datatype Built = BuiltTable(table: Table) | BuiltFigure(figure: Figure)

  function Output(c: Current): Built {
    match c
    case Frame(t, _) => BuiltTable(t)
    case Chart(f) => BuiltFigure(f)
  }

  // ---------------------------------------------------------------------
  // What the steps do

  /** A field step appends one column, named "date" for the values derived
      from the timestamps, and keeps every earlier column. */
  lemma FieldStepAppends(source: Table, t: Table, permuted: bool, f: Field, extra: seq<string>)
    requires Interpret(source, Frame(t, permuted), FieldStep(f, extra)).Ok?
    ensures var r := Interpret(source, Frame(t, permuted), FieldStep(f, extra)).value;
      var name := if f in {Hour, Day, Date} then "date" else FieldValue(f);
      r.Frame? && r.table.columns == t.columns + [name] && name !in t.columns &&
      Column(r.table, name) == FieldSeries(source, f).value.1 &&
      forall c :: c in t.columns ==> Column(r.table, c) == Column(t, c)
  {
  }

  /** Grouping needs exactly two columns and aggregates the second per
      distinct value of the first, in ascending key order. */
  lemma GroupByStepSpec(source: Table, t: Table, permuted: bool, g: GroupBy, extra: seq<string>)
    ensures |t.columns| != 2 ==> Interpret(source, Frame(t, permuted), GroupByStep(g, extra)) == Err(UnpackError)
    ensures Interpret(source, Frame(t, permuted), GroupByStep(g, extra)).Ok? ==>
      var r := Interpret(source, Frame(t, permuted), GroupByStep(g, extra)).value;
      |t.columns| == 2 && r.Frame? && !r.permuted && r.table.columns == t.columns &&
      ColumnOf(r.table.rows, t.columns[0]) == Grouping.GroupKeys(Column(t, t.columns[0])) &&
      Sorting.SortedBy(ColumnOf(r.table.rows, t.columns[0]), (v: Value) => v, true)
    ensures Interpret(source, Frame(t, permuted), GroupByStep(g, extra)).Ok? ==>
      var r := Interpret(source, Frame(t, permuted), GroupByStep(g, extra)).value;
      |t.columns| == 2 && r.Frame? &&
      forall i :: 0 <= i < |r.table.rows| ==>
        var group := Grouping.Group(t.rows, t.columns[0], Cell(r.table.rows[i], t.columns[0]));
        |group| > 0 && Grouping.Aggregate(Reduce(g), ColumnOf(group, t.columns[1])) == Ok(Cell(r.table.rows[i], t.columns[1]))
  {
    if Interpret(source, Frame(t, permuted), GroupByStep(g, extra)).Ok? {
      var r := Interpret(source, Frame(t, permuted), GroupByStep(g, extra)).value;
      assert r.table.columns == [t.columns[0]] + [t.columns[1]];
      var aggs := [(t.columns[1], Reduce(g))];
      Grouping.GroupByCells(t, t.columns[0], aggs);
      assert aggs[0] == (t.columns[1], Reduce(g));
    }
  }

  /** Value counts need exactly one column and come out ordered by value,
      ascending. */
  lemma ValueCountsSpec(source: Table, t: Table, permuted: bool, extra: seq<string>)
    ensures |t.columns| != 1 ==> Interpret(source, Frame(t, permuted), MutatorStep(ValueCounts, extra)) == Err(UnpackError)
    ensures Interpret(source, Frame(t, permuted), MutatorStep(ValueCounts, extra)).Ok? ==>
      var r := Interpret(source, Frame(t, permuted), MutatorStep(ValueCounts, extra)).value;
      |t.columns| == 1 && r.Frame? && r.table.columns == [t.columns[0], "count"] &&
      Sorting.SortedBy(r.table.rows, (row: Row) => Cell(row, t.columns[0]), true)
  {
  }

  /** ASCENDING and DESCENDING take exactly one argument, the column to sort
      by, in the direction they name. */
  lemma SortStepSpec(source: Table, t: Table, permuted: bool, m: Mutator, args: seq<string>)
    requires m != ValueCounts
    ensures |args| != 1 ==> Interpret(source, Frame(t, permuted), MutatorStep(m, args)) == Err(UnpackError)
    ensures Interpret(source, Frame(t, permuted), MutatorStep(m, args)).Ok? ==>
      var r := Interpret(source, Frame(t, permuted), MutatorStep(m, args)).value;
      |args| == 1 && r.Frame? && r.table.columns == t.columns &&
      multiset(r.table.rows) == multiset(t.rows) &&
      Sorting.SortedBy(r.table.rows, (row: Row) => Cell(row, args[0]), m == Ascending)
  {
  }

  /** A plot step needs exactly two columns: the first is x, the second y. */
  lemma PlotStepSpec(source: Table, t: Table, permuted: bool, p: Plot, extra: seq<string>)
    ensures Interpret(source, Frame(t, permuted), PlotStep(p, extra)).Ok? <==> |t.columns| == 2
    ensures |t.columns| == 2 ==>
      (Interpret(source, Frame(t, permuted), PlotStep(p, extra)) == Ok(Chart(Figure(p, t, t.columns[0], t.columns[1]))))
  {
  }

  /** Once a step fails, so does the whole replay. */
  lemma {:induction false} ReplayFailStops(source: Table, steps: seq<Step>, m: nat)
    requires m <= |steps| && Replay(source, steps[..m]).Err?
    ensures Replay(source, steps) == Replay(source, steps[..m])
    decreases |steps| - m
  {
    if m < |steps| {
      assert steps[..m + 1][..m] == steps[..m];
      ReplayFailStops(source, steps, m + 1);
    } else {
      assert steps[..m] == steps;
    }
  }

  /** A build that succeeds succeeded at every earlier step. */
  lemma ReplayPrefixOk(source: Table, steps: seq<Step>, m: nat)
    requires m <= |steps| && Replay(source, steps).Ok?
    ensures Replay(source, steps[..m]).Ok?
  {
    if Replay(source, steps[..m]).Err? {
      ReplayFailStops(source, steps, m);
    }
  }

  /** Two fields, an aggregation and a chart: a successful build puts the
      first field on x and the aggregated second field on y. */
  lemma {:induction false} GroupedChartAxes(source: Table, f1: Field, f2: Field, g: GroupBy, p: Plot)
    requires Replay(source, [FieldStep(f1, []), FieldStep(f2, []), GroupByStep(g, []), PlotStep(p, [])]).Ok?
    ensures var r := Replay(source, [FieldStep(f1, []), FieldStep(f2, []), GroupByStep(g, []), PlotStep(p, [])]).value;
      r.Chart? &&
      r.figure.x == (if f1 in {Hour, Day, Date} then "date" else FieldValue(f1)) &&
      r.figure.y == (if f2 in {Hour, Day, Date} then "date" else FieldValue(f2))
  {
    var s0: seq<Step> := [];
    var s1 := s0 + [FieldStep(f1, [])];
    var s2 := s1 + [FieldStep(f2, [])];
    var s3 := s2 + [GroupByStep(g, [])];
    FourSteps(FieldStep(f1, []), FieldStep(f2, []), GroupByStep(g, []), PlotStep(p, []));
    ReplaySnoc(source, s3, PlotStep(p, []));
    ReplaySnoc(source, s2, GroupByStep(g, []));
    ReplaySnoc(source, s1, FieldStep(f2, []));
    ReplaySnoc(source, s0, FieldStep(f1, []));
    var c1 := Replay(source, s1).value;
    var c2 := Replay(source, s2).value;
    var c3 := Replay(source, s3).value;
    FieldStepAppends(source, Empty.table, false, f1, []);
    FieldStepAppends(source, c1.table, c1.permuted, f2, []);
    GroupByStepSpec(source, c2.table, c2.permuted, g, []);
    PlotStepSpec(source, c3.table, c3.permuted, p, []);
  }

  // A proof step: a four-step list as four appends to the empty one.
  lemma FourSteps(a: Step, b: Step, c: Step, d: Step)
    ensures [a, b, c, d] == [] + [a] + [b] + [c] + [d]
  {
  }

  /** A replay that succeeds succeeded before its last step, which then ran
      on the state reached so far. */
  lemma ReplaySnoc(source: Table, init: seq<Step>, last: Step)
    requires Replay(source, init + [last]).Ok?
    ensures Replay(source, init).Ok?
    ensures Replay(source, init + [last]) == Interpret(source, Replay(source, init).value, last)
  {
    assert (init + [last])[..|init|] == init;
  }

  // ---------------------------------------------------------------------
  // The builder object

  class RPPlotBuilder {
    /** The source table, which `build` only reads. */
    const df: Table
    var steps: seq<Step>

    constructor(source: Table)
      ensures df == source && steps == []
    {
      df := source;
      steps := [];
    }

    /** `_add_step`: record one step. */
    method AddStep(step: Step)
      modifies this
      ensures steps == old(steps) + [step]
    {
      steps := steps + [step];
    }

    method Reset()
      modifies this
      ensures steps == []
    {
      steps := [];
    }

    /** `build()`: it changes nothing, so building twice gives the same
      result. */
    method Build() returns (r: Result<Built>)
      ensures Replay(df, steps).Ok? ==> r == Ok(Output(Replay(df, steps).value))
      ensures Replay(df, steps).Err? ==> r == Err(Replay(df, steps).error)
    {
      var current := Empty;
      var i := 0;
      while i < |steps|
        invariant 0 <= i <= |steps|
        invariant Replay(df, steps[..i]) == Ok(current)
      {
        assert steps[..i + 1][..i] == steps[..i];
        var next := Interpret(df, current, steps[i]);
        if next.Err? {
          ReplayFailStops(df, steps, i + 1);
          return Err(next.error);
        }
        current := next.value;
        i := i + 1;
      }
      assert steps[..i] == steps;
      return Ok(Output(current));
    }
  }
}
