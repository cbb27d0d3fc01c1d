/** The first dashboard's eager plot builder: it derives columns as fields
    are added, groups the active fields either by explicit aggregations or
    by the catalog's default for each field, sorts, and hands the table to
    the chart. Its field catalog is taken to be the backend one, whose
    derivations it repeats. */
module FrontendPlot {
  import opened Wrappers
  import opened Values
  import opened Dicts
  import opened Tables
  import opened BackendEnums
  import Enums
  import Grouping
  import Sorting
  import BackendTransformer

  datatype FState = FState(df: Table, fields: seq<Field>)

  datatype FStep = FStep(state: FState, outcome: Outcome)

  /** What the chart receives: its kind, the table and the two axis columns. */
  datatype Chart = Chart(kind: Enums.Plot, table: Table, x: Field, y: Field)

  // ---------------------------------------------------------------------
  // Adding fields

  /** `add_field`: parse the name, write the derived column if the field has
      one, and push the field, even when it is already active. */
  function AddFieldStep(s: FState, name: string, reaction: Option<string>): (r: FStep)
    ensures FieldOf(name).Err? ==> r == FStep(s, Fail(FieldOf(name).error))
    ensures r.outcome.Fail? ==> r.state == s
    ensures FieldOf(name).Ok? ==>
      (r.outcome.Pass? <==> BackendTransformer.Derivation(s.df, FieldOf(name).value, reaction).Ok?)
    ensures r.outcome.Pass? ==> r.state.fields == s.fields + [FieldOf(name).value]
    ensures r.outcome.Pass? ==> var f := FieldOf(name).value;
      var d := BackendTransformer.Derivation(s.df, f, reaction).value;
      r.state.df == (if d.Some? then SetColumn(s.df, FieldValue(f), d.value) else s.df)
  {
    match FieldOf(name)
    case Err(e) => FStep(s, Fail(e))
    case Ok(f) =>
      match BackendTransformer.Derivation(s.df, f, reaction)
      case Err(e) => FStep(s, Fail(e))
      case Ok(None) => FStep(s.(fields := s.fields + [f]), Pass)
      case Ok(Some(vals)) => FStep(FState(SetColumn(s.df, FieldValue(f), vals), s.fields + [f]), Pass)
  }

  /** What a successful `add_field` stores, row by row: the hour, day or
      calendar date of the "date" timestamp, the constant 1, or the largest
      (or the named) reaction count; every other column is kept. */
  lemma AddFieldDerives(s: FState, f: Field, reaction: Option<string>, k: nat)
    requires AddFieldStep(s, FieldValue(f), reaction).outcome.Pass? && k < |s.df.rows|
    ensures var t := AddFieldStep(s, FieldValue(f), reaction).state.df;
      var cell := Cell(s.df.rows[k], FieldValue(if f == ReactionCount then Reactions else Date));
      |t.rows| == |s.df.rows| &&
      (f == ReactionCount && !BackendTransformer.Supplied(reaction) ==>
         cell.VReactions? && Column(t, "reaction_count")[k] == VInt(BackendTransformer.MaxCount(cell.counts))) &&
      (f == ReactionCount && BackendTransformer.Supplied(reaction) ==>
         cell.VReactions? &&
         Column(t, "reaction_count")[k] == VInt(match Get(cell.counts, reaction.value) case Some(n) => n case None => 0)) &&
      (f == Hour ==> cell.VTime? && Column(t, "hour")[k] == VInt(cell.t.hour)) &&
      (f == Day ==> cell.VTime? && Column(t, "day")[k] == VInt(cell.t.date.day)) &&
      (f == Date ==> cell.VTime? && Column(t, "date")[k] == VDate(cell.t.date)) &&
      (f == Count ==> Column(t, "count")[k] == VInt(1))
    ensures var t := AddFieldStep(s, FieldValue(f), reaction).state.df;
      forall d :: d != FieldValue(f) ==> Column(t, d) == Column(s.df, d)
  {
    FieldOfValue(f);
    var d := BackendTransformer.Derivation(s.df, f, reaction);
    if d.value.Some? {
      SetColumnSpec(s.df, FieldValue(f), d.value.value);
    }
  }

  /** `for field in fields: self.add_field(field)`, stopping at the first
      failure. */
  function AddFields(s: FState, names: seq<string>): (r: FStep)
    ensures |r.state.df.rows| == |s.df.rows|
    decreases |names|
  {
    if |names| == 0 then FStep(s, Pass)
    else
      var prev := AddFields(s, names[..|names| - 1]);
      if prev.outcome.Fail? then prev
      else AddFieldStep(prev.state, names[|names| - 1], None)
  }

  /** `fields` is `base` followed by the fields named by `names`, in order. */
  predicate Pushes(fields: seq<Field>, base: seq<Field>, names: seq<string>) {
    |fields| == |base| + |names| && fields[..|base|] == base &&
    forall k :: 0 <= k < |names| ==> FieldValue(fields[|base| + k]) == names[k]
  }

  /** Adding fields one by one pushes every one of them, in order. */
  lemma {:induction false} AddFieldsPushes(s: FState, names: seq<string>)
    requires AddFields(s, names).outcome.Pass?
    ensures Pushes(AddFields(s, names).state.fields, s.fields, names)
    decreases |names|
  {
    if |names| == 0 {
      assert s.fields[..|s.fields|] == s.fields;
    } else {
      var init := names[..|names| - 1];
      AddFieldsLast(s, names);
      AddFieldsPushes(s, init);
      PushesSnoc(AddFields(s, names).state.fields, AddFields(s, init).state.fields, s.fields, init, names);
    }
  }

  /** A loop that succeeds succeeded before its last name, which then pushed
      its field. */
  lemma AddFieldsLast(s: FState, names: seq<string>)
    requires |names| > 0 && AddFields(s, names).outcome.Pass?
    ensures AddFields(s, names[..|names| - 1]).outcome.Pass?
    ensures FieldOf(names[|names| - 1]).Ok? && FieldValue(FieldOf(names[|names| - 1]).value) == names[|names| - 1]
    ensures AddFields(s, names).state.fields ==
      AddFields(s, names[..|names| - 1]).state.fields + [FieldOf(names[|names| - 1]).value]
  {
  }

  lemma PushesSnoc(after: seq<Field>, before: seq<Field>, base: seq<Field>, init: seq<string>, names: seq<string>)
    requires |names| > 0 && init == names[..|names| - 1] && Pushes(before, base, init)
    requires |after| == |before| + 1 && after[..|before|] == before
    requires FieldValue(after[|before|]) == names[|names| - 1]
    ensures Pushes(after, base, names)
  {
    forall k | 0 <= k < |names| ensures FieldValue(after[|base| + k]) == names[k] {
      if k < |init| {
        assert after[|base| + k] == before[|base| + k];
        assert names[k] == init[k];
      }
    }
    assert after[..|base|] == before[..|base|];
  }

  lemma {:induction false} AddFieldsStops(s: FState, names: seq<string>, m: nat)
    requires m <= |names| && AddFields(s, names[..m]).outcome.Fail?
    ensures AddFields(s, names) == AddFields(s, names[..m])
    decreases |names| - m
  {
    if m < |names| {
      assert names[..m + 1][..m] == names[..m];
      AddFieldsStops(s, names, m + 1);
    } else {
      assert names[..m] == names;
    }
  }

  // ---------------------------------------------------------------------
  // Grouping

  /** The default aggregation of a field: NUNIQUE when the catalog calls it
      categorical, SUM otherwise. */
  function DefaultAggregation(f: Field): (r: Result<GroupBy>)
    ensures r.Ok? <==> Categorical(f).Ok?
    ensures r.Ok? ==> (r.value == GroupNunique <==> Categorical(f).value)
    ensures r.Ok? ==> r.value in {GroupNunique, GroupSum}
  {
    var c :- Categorical(f);
    Ok(if c then GroupNunique else GroupSum)
  }

  /** `{field: (field, default aggregation) for field in rest}`. */
  function DefaultAggregations(rest: seq<Field>): (r: Result<Dict<Field, GroupBy>>)
    ensures r.Ok? <==> forall k :: 0 <= k < |rest| ==> Categorical(rest[k]).Ok?
    ensures r.Ok? ==> |r.value| == |rest|
    ensures r.Ok? ==> forall k :: 0 <= k < |rest| ==> r.value[k] == (rest[k], DefaultAggregation(rest[k]).value)
    decreases |rest|
  {
    if |rest| == 0 then Ok([])
    else
      var g :- DefaultAggregation(rest[0]);
      var tail := DefaultAggregations(rest[1..]);
      assert forall k :: 0 < k < |rest| ==> rest[k] == rest[1..][k - 1];
      if tail.Err? then Err(tail.error) else Ok([(rest[0], g)] + tail.value)
  }

  /** The default aggregation dict for the fields before the last one, with
      column names: one distinct entry per field, in order. */
  function DefaultSpec(fields: seq<Field>): (r: Result<Dict<string, Grouping.Agg>>)
    requires |fields| > 0 && Sorting.Distinct(fields)
    ensures r.Ok? <==> DefaultAggregations(fields[..|fields| - 1]).Ok?
    ensures r.Ok? ==> DistinctKeys(r.value)
    ensures r.Ok? ==> Keys(r.value) == BackendTransformer.FieldValues(fields[..|fields| - 1])
    ensures r.Ok? ==> forall k :: 0 <= k < |fields| - 1 ==>
      r.value[k].1 == Reduction(if Categorical(fields[k]).value then GroupNunique else GroupSum)
  {
    var rest := fields[..|fields| - 1];
    var aggs :- DefaultAggregations(rest);
    assert DistinctKeys(aggs) by {
      forall i, j | 0 <= i < j < |aggs| ensures aggs[i].0 != aggs[j].0 {
        assert aggs[i].0 == fields[i] && aggs[j].0 == fields[j];
      }
    }
    BackendTransformer.AggSpecDistinct(aggs);
    var spec := BackendTransformer.AggSpec(aggs);
    assert Keys(spec) == BackendTransformer.FieldValues(rest);
    Ok(spec)
  }

  /** The explicit branch: exactly one projected column may be left
      unaggregated, and it is the key. Named aggregation with no pairs is a
      TypeError. */
  function GroupExplicit(projected: Table, aggs: Dict<Field, GroupBy>): (r: Result<Table>)
    requires DistinctKeys(aggs)
    ensures |BackendTransformer.Unaggregated(projected.columns, BackendTransformer.AggSpec(aggs))| != 1 ==>
      r == Err(UnpackError)
  {
    var spec := BackendTransformer.AggSpec(aggs);
    var keys := BackendTransformer.Unaggregated(projected.columns, spec);
    if |keys| != 1 then Err(UnpackError)
    else if |aggs| == 0 then Err(TypeError)
    else
      BackendTransformer.AggSpecDistinct(aggs);
      Grouping.GroupBy(projected, keys[0], spec)
  }

  /** With explicit aggregations the key is the one projected column the
      dict does not name. */
  lemma ExplicitGroupingKey(projected: Table, aggs: Dict<Field, GroupBy>)
    requires DistinctKeys(aggs) && GroupExplicit(projected, aggs).Ok?
    ensures var spec := BackendTransformer.AggSpec(aggs);
      DistinctKeys(spec) && |aggs| > 0 &&
      exists key :: key in projected.columns && key !in Keys(spec) &&
        (forall c :: c in projected.columns && c !in Keys(spec) ==> c == key) &&
        GroupExplicit(projected, aggs) == Grouping.GroupBy(projected, key, spec)
  {
    var spec := BackendTransformer.AggSpec(aggs);
    BackendTransformer.AggSpecDistinct(aggs);
    var keys := BackendTransformer.Unaggregated(projected.columns, spec);
    assert keys[0] in keys;
    forall c | c in projected.columns && c !in Keys(spec) ensures c == keys[0] {
      assert c in keys;
    }
  }

  /** The default branch: `*rest, key = fields`, each of `rest` with its
      default aggregation. */
  function GroupDefault(projected: Table, fields: seq<Field>): (r: Result<Table>)
    requires Sorting.Distinct(fields)
    ensures |fields| == 0 ==> r == Err(UnpackError)
    ensures |fields| == 1 ==> r == Err(TypeError)
    ensures r.Ok? ==> (|fields| >= 2 && DefaultSpec(fields).Ok? &&
      r == Grouping.GroupBy(projected, FieldValue(fields[|fields| - 1]), DefaultSpec(fields).value))
  {
    if |fields| == 0 then Err(UnpackError)
    else
      var spec :- DefaultSpec(fields);
      if |spec| == 0 then Err(TypeError)
      else Grouping.GroupBy(projected, FieldValue(fields[|fields| - 1]), spec)
  }

  /** Default grouping keys on the last active field, aggregates every other
      one, and the result's columns are the key then the others in order. */
  lemma DefaultGroupingKeysOnLast(projected: Table, fields: seq<Field>)
    requires Sorting.Distinct(fields) && GroupDefault(projected, fields).Ok?
    ensures |fields| >= 2
    ensures GroupDefault(projected, fields).value.columns ==
      BackendTransformer.FieldValues(fields[|fields| - 1..] + fields[..|fields| - 1])
  {
    var r := GroupDefault(projected, fields).value;
    var n := |fields|;
    assert r.columns == [FieldValue(fields[n - 1])] + BackendTransformer.FieldValues(fields[..n - 1]);
    KeyThenRest(fields);
  }

  lemma KeyThenRest(fields: seq<Field>)
    requires |fields| > 0
    ensures BackendTransformer.FieldValues(fields[|fields| - 1..] + fields[..|fields| - 1]) ==
      [FieldValue(fields[|fields| - 1])] + BackendTransformer.FieldValues(fields[..|fields| - 1])
  {
    var n := |fields|;
    assert fields[n - 1..] == [fields[n - 1]];
    var a := BackendTransformer.FieldValues(fields[n - 1..] + fields[..n - 1]);
    var b := [FieldValue(fields[n - 1])] + BackendTransformer.FieldValues(fields[..n - 1]);
    assert |a| == |b|;
    forall k | 0 <= k < |a| ensures a[k] == b[k] {
      if k > 0 {
        assert (fields[n - 1..] + fields[..n - 1])[k] == fields[..n - 1][k - 1];
      }
    }
  }

  /** The grouping `group_by_multiple` applies to an already projected table. */
  function Grouped(projected: Table, fields: seq<Field>, aggs: Dict<Field, GroupBy>): (r: Result<Table>)
    requires DistinctKeys(aggs) && Sorting.Distinct(fields)
    ensures |aggs| > 0 ==> r == GroupExplicit(projected, aggs)
    ensures |aggs| == 0 ==> r == GroupDefault(projected, fields)
  {
    if |aggs| > 0 then GroupExplicit(projected, aggs) else GroupDefault(projected, fields)
  }

  lemma DistinctNames(fs: seq<Field>)
    requires Sorting.Distinct(BackendTransformer.FieldValues(fs))
    ensures Sorting.Distinct(fs)
  {
    var names := BackendTransformer.FieldValues(fs);
    forall i, j | 0 <= i < j < |fs| ensures fs[i] != fs[j] {
      assert names[i] != names[j];
    }
  }

  /** `group_by_multiple(aggregations)`: project to the active fields, which
      sticks even if grouping then fails, and group the explicit or the
      default way. */
  function GroupByMultipleStep(s: FState, aggs: Dict<Field, GroupBy>): (r: FStep)
    requires DistinctKeys(aggs)
    ensures r.state.fields == s.fields
    ensures Project(s.df, BackendTransformer.FieldValues(s.fields)).Err? ==>
      r == FStep(s, Fail(Project(s.df, BackendTransformer.FieldValues(s.fields)).error))
    ensures Project(s.df, BackendTransformer.FieldValues(s.fields)).Ok? ==> Sorting.Distinct(s.fields)
    ensures r.outcome.Pass? ==> (Project(s.df, BackendTransformer.FieldValues(s.fields)).Ok? &&
      var grouped := Grouped(Project(s.df, BackendTransformer.FieldValues(s.fields)).value, s.fields, aggs);
      grouped.Ok? && r.state.df == grouped.value)
    ensures r.outcome.Fail? && Project(s.df, BackendTransformer.FieldValues(s.fields)).Ok? ==>
      var projected := Project(s.df, BackendTransformer.FieldValues(s.fields)).value;
      Grouped(projected, s.fields, aggs).Err? && r.state.df == projected &&
      r.outcome.error == Grouped(projected, s.fields, aggs).error
  {
    match Project(s.df, BackendTransformer.FieldValues(s.fields))
    case Err(e) => FStep(s, Fail(e))
    case Ok(projected) =>
      DistinctNames(s.fields);
      match Grouped(projected, s.fields, aggs)
      case Err(e) => FStep(s.(df := projected), Fail(e))
      case Ok(g) => FStep(s.(df := g), Pass)
  }

  // ---------------------------------------------------------------------
  // Sorting and plotting

  /** `sort(field, ascending)`. */
  function SortStep(s: FState, f: Field, ascending: bool): (r: FStep)
    ensures r.state.fields == s.fields
    ensures SortTable(s.df, FieldValue(f), ascending).Err? ==>
      r == FStep(s, Fail(SortTable(s.df, FieldValue(f), ascending).error))
    ensures SortTable(s.df, FieldValue(f), ascending).Ok? ==>
      r == FStep(s.(df := SortTable(s.df, FieldValue(f), ascending).value), Pass)
  {
    match SortTable(s.df, FieldValue(f), ascending)
    case Err(e) => FStep(s, Fail(e))
    case Ok(t) => FStep(s.(df := t), Pass)
  }

  /** The chart call: both axes must name columns. */
  function MakeChart(kind: Enums.Plot, t: Table, x: Field, y: Field): (r: Result<Chart>)
    ensures r.Ok? <==> FieldValue(x) in t.columns && FieldValue(y) in t.columns
    ensures r.Ok? ==> r.value == Chart(kind, t, x, y)
  {
    if FieldValue(x) !in t.columns then Err(ValueError("Value of 'x' is not the name of a column in 'data_frame'"))
    else if FieldValue(y) !in t.columns then Err(ValueError("Value of 'y' is not the name of a column in 'data_frame'"))
    else Ok(Chart(kind, t, x, y))
  }

  /** The sort `plot` applies after grouping: ascending by the first named
      field, unless the last one is temporal. */
  function DefaultSort(s: FState, names: seq<string>): (r: FStep)
    requires forall k :: 0 <= k < |names| ==> FieldOf(names[k]).Ok?
    ensures |names| < 2 ==> r == FStep(s, Fail(UnpackError))
    ensures r.outcome.Pass? ==> |names| >= 2 && r.state.fields == s.fields && r.state.df.columns == s.df.columns
    ensures r.outcome.Pass? ==> Temporal(FieldOf(names[|names| - 1]).value).Ok?
    ensures r.outcome.Pass? && Temporal(FieldOf(names[|names| - 1]).value).value ==> r.state == s
    ensures r.outcome.Pass? && !Temporal(FieldOf(names[|names| - 1]).value).value ==>
      Sorting.SortedBy(r.state.df.rows, (row: Row) => Cell(row, names[0]), true)
  {
    if |names| < 2 then FStep(s, Fail(UnpackError))
    else
      var last := FieldOf(names[|names| - 1]).value;
      match Temporal(last)
      case Err(e) => FStep(s, Fail(e))
      case Ok(temporal) =>
        if temporal then FStep(s, Pass)
        else
          FieldOfValue(FieldOf(names[0]).value);
          SortStep(s, FieldOf(names[0]).value, true)
  }

  /** `plot(fields, x_axis, y_axis, plot_type)`: add every field, group with
      the defaults, sort by default and make the chart. */
  function PlotStep(s: FState, names: seq<string>, x: Field, y: Field, kind: Enums.Plot)
    : (r: (FState, Result<Chart>))
    ensures r.1.Ok? ==> forall k :: 0 <= k < |names| ==> FieldOf(names[k]).Ok?
    ensures r.1.Ok? ==> r.1.value.kind == kind && r.1.value.x == x && r.1.value.y == y
  {
    var added := AddFields(s, names);
    if added.outcome.Fail? then (added.state, Err(added.outcome.error))
    else
      AddFieldsParsed(s, names);
      ChartStep(added.state, names, x, y, kind)
  }

  /** What `plot` does once every field is added. */
  function ChartStep(s: FState, names: seq<string>, x: Field, y: Field, kind: Enums.Plot)
    : (r: (FState, Result<Chart>))
    requires forall k :: 0 <= k < |names| ==> FieldOf(names[k]).Ok?
  {
    var grouped := GroupByMultipleStep(s, []);
    if grouped.outcome.Fail? then (grouped.state, Err(grouped.outcome.error))
    else
      var sorted := DefaultSort(grouped.state, names);
      if sorted.outcome.Fail? then (sorted.state, Err(sorted.outcome.error))
      else (sorted.state, MakeChart(kind, sorted.state.df, x, y))
  }

  /** Fields that were added were valid names. */
  lemma AddFieldsParsed(s: FState, names: seq<string>)
    requires AddFields(s, names).outcome.Pass?
    ensures forall k :: 0 <= k < |names| ==> FieldOf(names[k]).Ok?
  {
    AddFieldsPushes(s, names);
    var r := AddFields(s, names).state;
    forall k | 0 <= k < |names| ensures FieldOf(names[k]).Ok? {
      FieldOfValue(r.fields[|s.fields| + k]);
    }
  }

  /** A chart from `plot` is over a table grouped by the last named field and,
      unless that field is temporal, sorted ascending by the first. */
  lemma PlotOrdering(s: FState, names: seq<string>, x: Field, y: Field, kind: Enums.Plot)
    requires PlotStep(s, names, x, y, kind).1.Ok?
    ensures |names| >= 2
    ensures var c := PlotStep(s, names, x, y, kind).1.value;
      c.kind == kind && c.x == x && c.y == y && c.table.columns[0] == names[|names| - 1]
    ensures var c := PlotStep(s, names, x, y, kind).1.value;
      Temporal(FieldOf(names[|names| - 1]).value) == Ok(false) ==>
        Sorting.SortedBy(c.table.rows, (row: Row) => Cell(row, names[0]), true)
  {
    AddFieldsParsed(s, names);
    AddFieldsPushes(s, names);
    var added := AddFields(s, names).state;
    var grouped := GroupByMultipleStep(added, []);
    var projected := Project(added.df, BackendTransformer.FieldValues(added.fields)).value;
    DefaultGroupingKeysOnLast(projected, added.fields);
    var n := |added.fields|;
    assert grouped.state.df.columns[0] == FieldValue(added.fields[n - 1]);
    assert FieldValue(added.fields[n - 1]) == names[|names| - 1] by {
      assert n - 1 == |s.fields| + |names| - 1;
    }
  }

  // ---------------------------------------------------------------------
  // The builder object

  class PlotBuilder {
    var df: Table
    var fields: seq<Field>

    function State(): FState
      reads this
    {
      FState(df, fields)
    }

    /** `__init__`: a copy of the table and no active fields. */
    constructor(t: Table)
      ensures State() == FState(t, [])
    {
      df := t;
      fields := [];
    }

    method AddField(name: string, reaction: Option<string>) returns (o: Outcome)
      modifies this
      ensures FStep(State(), o) == AddFieldStep(old(State()), name, reaction)
    {
      var f := FieldOf(name);
      if f.Err? {
        return Fail(f.error);
      }
      var d := BackendTransformer.Derivation(df, f.value, reaction);
      if d.Err? {
        return Fail(d.error);
      }
      if d.value.Some? {
        df := SetColumn(df, FieldValue(f.value), d.value.value);
      }
      fields := fields + [f.value];
      return Pass;
    }

    method GroupByMultiple(aggs: Dict<Field, GroupBy>) returns (o: Outcome)
      requires DistinctKeys(aggs)
      modifies this
      ensures FStep(State(), o) == GroupByMultipleStep(old(State()), aggs)
    {
      var projected := Project(df, BackendTransformer.FieldValues(fields));
      if projected.Err? {
        return Fail(projected.error);
      }
      df := projected.value;
      DistinctNames(fields);
      var grouped := Grouped(df, fields, aggs);
      if grouped.Err? {
        return Fail(grouped.error);
      }
      df := grouped.value;
      return Pass;
    }

    method Sort(f: Field, ascending: bool) returns (o: Outcome)
      modifies this
      ensures FStep(State(), o) == SortStep(old(State()), f, ascending)
    {
      var r := SortTable(df, FieldValue(f), ascending);
      if r.Err? {
        return Fail(r.error);
      }
      df := r.value;
      return Pass;
    }

    /** `for field in fields: self.add_field(field)`. */
    method AddEach(names: seq<string>) returns (o: Outcome)
      modifies this
      ensures FStep(State(), o) == AddFields(old(State()), names)
    {
      ghost var s0 := State();
      var i := 0;
      while i < |names|
        invariant 0 <= i <= |names|
        invariant AddFields(s0, names[..i]) == FStep(State(), Pass)
      {
        assert names[..i + 1][..i] == names[..i];
        assert names[..i + 1][i] == names[i];
        o := AddField(names[i], None);
        if o.Fail? {
          AddFieldsStops(s0, names, i + 1);
          return;
        }
        i := i + 1;
      }
      assert names[..i] == names;
      o := Pass;
    }

    /** `plot(fields, x_axis, y_axis, plot_type)`. */
    method Plot(names: seq<string>, x: Field, y: Field, kind: Enums.Plot) returns (r: Result<Chart>)
      modifies this
      ensures (State(), r) == PlotStep(old(State()), names, x, y, kind)
    {
      ghost var s0 := State();
      var o := AddEach(names);
      if o.Fail? {
        return Err(o.error);
      }
      AddFieldsParsed(s0, names);
      ghost var added := State();
      assert PlotStep(s0, names, x, y, kind) == ChartStep(added, names, x, y, kind);
      o := GroupByMultiple([]);
      if o.Fail? {
        return Err(o.error);
      }
      ghost var grouped := State();
      assert GroupByMultipleStep(added, []) == FStep(grouped, Pass);
      if |names| < 2 {
        return Err(UnpackError);
      }
      var last := FieldOf(names[|names| - 1]).value;
      var temporal := Temporal(last);
      if temporal.Err? {
        return Err(temporal.error);
      }
      if !temporal.value {
        o := Sort(FieldOf(names[0]).value, true);
        if o.Fail? {
          return Err(o.error);
        }
      }
      assert DefaultSort(grouped, names) == FStep(State(), Pass);
      r := MakeChart(kind, df, x, y);
    }
  }
}
