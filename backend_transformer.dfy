/** The backend's table transformer: a working copy of the caller's table, the
    ordered list of active fields, and the label metadata. Every operation
    changes that state; the functions below give the state after each one,
    and the class's methods are proved to produce exactly that state. */
module BackendTransformer {
  import opened Wrappers
  import opened Values
  import opened Sorting
  import opened Dicts
  import opened Tables
  import Grouping
  import opened BackendEnums
  import opened BackendMetadata

  datatype TState = TState(original: Table, df: Table, fields: seq<Field>, meta: MetaState)

  datatype TStep = TStep(state: TState, outcome: Outcome)

  /** Construction: the original table, a copy of it to work on, no fields
      and fresh metadata. */
  function Initial(t: Table): (s: TState)
    ensures s.original == t && s.df == t && s.fields == [] && s.meta == Fresh
  {
    TState(t, t, [], Fresh)
  }

  // -----------------------------------------------------------------------
  // Derived columns

  /** The largest count of a reaction map, or 0 for an empty map. */
  function MaxCount(counts: seq<(string, int)>): (r: int)
    ensures counts == [] ==> r == 0
    ensures forall k :: 0 <= k < |counts| ==> counts[k].1 <= r
    ensures counts != [] ==> exists k :: 0 <= k < |counts| && counts[k].1 == r
    decreases |counts|
  {
    if |counts| == 0 then 0
    else if |counts| == 1 then counts[0].1
    else
      var m := MaxCount(counts[1..]);
      assert forall k :: 1 <= k < |counts| ==> counts[k] == counts[1..][k - 1];
      if counts[0].1 >= m then counts[0].1 else m
  }

  /** `max(d.values(), default=0)`. */
  function MostReactions(cell: Value): (r: Result<Value>)
    ensures r.Ok? <==> cell.VReactions?
    ensures r.Ok? ==> r.value == VInt(MaxCount(cell.counts))
  {
    if cell.VReactions? then Ok(VInt(MaxCount(cell.counts))) else Err(AttributeError("values"))
  }

  /** `d.get(reaction, 0)`. */
  function ReactionCountOf(reaction: string): Value -> Result<Value> {
    (cell: Value) =>
      if cell.VReactions? then
        Ok(VInt(match Get(cell.counts, reaction) case Some(n) => n case None => 0))
      else Err(AttributeError("get"))
  }

  /** An optional text argument that Python's `if arg:` treats as given. */
  predicate Supplied(arg: Option<string>) {
    arg.Some? && arg.value != ""
  }

  /** The column `add_field` writes for `f`, if it writes one. */
  function Derivation(df: Table, f: Field, reaction: Option<string>): (r: Result<Option<seq<Value>>>)
    ensures Supplied(reaction) && f != ReactionCount ==> r == Err(ValueError("Invalid field for reaction counts"))
    ensures r.Ok? && r.value.Some? ==> |r.value.value| == |df.rows|
    ensures r.Ok? && r.value.None? <==> !Supplied(reaction) && f !in {Hour, Day, Date, ReactionCount, Count}
  {
    if Supplied(reaction) && f == ReactionCount then
      var col :- GetColumn(df, FieldValue(Reactions));
      var vals :- MapCells(col, ReactionCountOf(reaction.value));
      Ok(Some(vals))
    else if Supplied(reaction) then Err(ValueError("Invalid field for reaction counts"))
    else if f == Hour then
      var col :- GetColumn(df, FieldValue(Date));
      var vals :- MapCells(col, HourOf);
      Ok(Some(vals))
    else if f == Day then
      var col :- GetColumn(df, FieldValue(Date));
      var vals :- MapCells(col, DayOf);
      Ok(Some(vals))
    else if f == Date then
      var col :- GetColumn(df, FieldValue(Date));
      var vals :- MapCells(col, CalendarDateOf);
      Ok(Some(vals))
    else if f == ReactionCount then
      var col :- GetColumn(df, FieldValue(Reactions));
      var vals :- MapCells(col, MostReactions);
      Ok(Some(vals))
    else if f == Count then Ok(Some(seq(|df.rows|, _ => VInt(1))))
    else Ok(None)
  }

  /** `add_field`. */
  function AddFieldStep(s: TState, name: string, reaction: Option<string>): (r: TStep)
    ensures FieldOf(name).Err? ==> r == TStep(s, Fail(FieldOf(name).error))
    ensures r.outcome.Fail? ==> r.state == s
    ensures r.outcome.Pass? ==> r.state.fields == s.fields + [FieldOf(name).value]
    ensures r.state.original == s.original && r.state.meta == s.meta
  {
    match FieldOf(name)
    case Err(e) => TStep(s, Fail(e))
    case Ok(f) =>
      match Derivation(s.df, f, reaction)
      case Err(e) => TStep(s, Fail(e))
      case Ok(None) => TStep(s.(fields := s.fields + [f]), Pass)
      case Ok(Some(vals)) => TStep(s.(df := SetColumn(s.df, FieldValue(f), vals), fields := s.fields + [f]), Pass)
  }

  // -----------------------------------------------------------------------
  // Grouping

  function FieldValues(fs: seq<Field>): (r: seq<string>)
    ensures |r| == |fs| && forall k :: 0 <= k < |fs| ==> r[k] == FieldValue(fs[k])
  {
    seq(|fs|, k requires 0 <= k < |fs| => FieldValue(fs[k]))
  }

  /** The aggregation dict with column names and pandas reductions. */
  function AggSpec(aggs: Dict<Field, GroupBy>): (r: Dict<string, Grouping.Agg>)
    ensures |r| == |aggs|
    ensures forall k :: 0 <= k < |aggs| ==> r[k] == (FieldValue(aggs[k].0), Reduction(aggs[k].1))
  {
    seq(|aggs|, k requires 0 <= k < |aggs| => (FieldValue(aggs[k].0), Reduction(aggs[k].1)))
  }

  lemma AggSpecDistinct(aggs: Dict<Field, GroupBy>)
    requires DistinctKeys(aggs)
    ensures DistinctKeys(AggSpec(aggs))
  {
    forall i, j | 0 <= i < j < |aggs| ensures AggSpec(aggs)[i].0 != AggSpec(aggs)[j].0 {
      FieldOfValue(aggs[i].0);
      FieldOfValue(aggs[j].0);
    }
  }

  /** The columns not named by the aggregation dict, in column order. */
  function Unaggregated(cols: seq<string>, aggs: Dict<string, Grouping.Agg>): (r: seq<string>)
    ensures forall c :: c in r <==> c in cols && c !in Keys(aggs)
    decreases |cols|
  {
    if |cols| == 0 then []
    else
      var rest := Unaggregated(cols[1..], aggs);
      assert forall c :: c in cols <==> c == cols[0] || c in cols[1..];
      if cols[0] !in Keys(aggs) then [cols[0]] + rest else rest
  }

  /** The metadata loop of `group_by_multiple`, stopping at the first failure. */
  function AfterGroupByAll(m: MetaState, aggs: Dict<Field, GroupBy>): (r: MetaStep)
    ensures r.state.filters == m.filters
    decreases |aggs|
  {
    if |aggs| == 0 then MetaStep(m, Pass)
    else
      var before := AfterGroupByAll(m, aggs[..|aggs| - 1]);
      if before.outcome.Fail? then before
      else AfterGroupBy(before.state, aggs[|aggs| - 1].0, aggs[|aggs| - 1].1)
  }

  /** `group_by_multiple`: project to the active fields, find the single
      unaggregated key, aggregate the rest, then record each aggregation. */
  function GroupByMultipleStep(s: TState, aggs: Dict<Field, GroupBy>): (r: TStep)
    requires DistinctKeys(aggs)
    ensures r.state.original == s.original && r.state.fields == s.fields
    ensures r.outcome.Pass? ==>
      AfterGroupByAll(s.meta, aggs).outcome.Pass? && r.state.meta == AfterGroupByAll(s.meta, aggs).state
    ensures Project(s.df, FieldValues(s.fields)).Err? ==> r == TStep(s, Fail(Project(s.df, FieldValues(s.fields)).error))
    ensures Project(s.df, FieldValues(s.fields)).Ok? &&
            |Unaggregated(FieldValues(s.fields), AggSpec(aggs))| != 1 ==>
      r == TStep(s.(df := Project(s.df, FieldValues(s.fields)).value), Fail(UnpackError))
  {
    match Project(s.df, FieldValues(s.fields))
    case Err(e) => TStep(s, Fail(e))
    case Ok(projected) =>
      var spec := AggSpec(aggs);
      var keys := Unaggregated(projected.columns, spec);
      if |keys| != 1 then TStep(s.(df := projected), Fail(UnpackError))
      else if |aggs| == 0 then TStep(s.(df := projected), Fail(TypeError))
      else
        AggSpecDistinct(aggs);
        match Grouping.GroupBy(projected, keys[0], spec)
        case Err(e) => TStep(s.(df := projected), Fail(e))
        case Ok(grouped) =>
          var m := AfterGroupByAll(s.meta, aggs);
          TStep(s.(df := grouped, meta := m.state), m.outcome)
  }

  /** The aggregation dict `group_by` builds: `agg` for every field in `rest`. */
  function Uniform(rest: seq<Field>, g: GroupBy): (r: Dict<Field, GroupBy>)
    ensures DistinctKeys(r)
  {
    FromPairsDistinct(seq(|rest|, k requires 0 <= k < |rest| => (rest[k], g)));
    FromPairs(seq(|rest|, k requires 0 <= k < |rest| => (rest[k], g)))
  }

  /** `group_by(agg, field)`: with a key, every other active field is
      aggregated; without one, the first active field is the key. */
  function GroupByStep(s: TState, g: GroupBy, key: Option<string>): (r: TStep)
    ensures !Supplied(key) && s.fields == [] ==> r == TStep(s, Fail(UnpackError))
    ensures !Supplied(key) && s.fields != [] ==> r == GroupByMultipleStep(s, Uniform(s.fields[1..], g))
    ensures Supplied(key) ==> r == GroupByMultipleStep(s, Uniform(OtherFields(s.fields, key.value), g))
  {
    if Supplied(key) then
      var rest := OtherFields(s.fields, key.value);
      GroupByMultipleStep(s, Uniform(rest, g))
    else if s.fields == [] then TStep(s, Fail(UnpackError))
    else GroupByMultipleStep(s, Uniform(s.fields[1..], g))
  }

  /** The active fields whose value differs from `key`, in order. */
  function OtherFields(fs: seq<Field>, key: string): (r: seq<Field>)
    ensures forall f :: f in r <==> f in fs && FieldValue(f) != key
    decreases |fs|
  {
    if |fs| == 0 then []
    else
      var rest := OtherFields(fs[1..], key);
      assert forall f :: f in fs <==> f == fs[0] || f in fs[1..];
      if FieldValue(fs[0]) != key then [fs[0]] + rest else rest
  }

  // -----------------------------------------------------------------------
  // Value counts, cumulative, sort, filter, reset

  /** `value_counts`: exactly one active field; its counts replace the table
      and are labelled as a sum of COUNT. */
  function ValueCountsStep(s: TState): (r: TStep)
    ensures |s.fields| != 1 ==> r == TStep(s, Fail(UnpackError))
    ensures r.outcome.Pass? ==>
      |s.fields| == 1 && Grouping.ValueCounts(s.df, FieldValue(s.fields[0])).Ok? &&
      r.state == s.(df := Grouping.ValueCounts(s.df, FieldValue(s.fields[0])).value,
                    meta := AfterGroupBy(s.meta, Count, GroupSum).state)
  {
    if |s.fields| != 1 then TStep(s, Fail(UnpackError))
    else
      match Grouping.ValueCounts(s.df, FieldValue(s.fields[0]))
      case Err(e) => TStep(s, Fail(e))
      case Ok(counts) =>
        var m := AfterGroupBy(s.meta, Count, GroupSum);
        TStep(s.(df := counts, meta := m.state), m.outcome)
  }

  function IndexOf(cols: seq<string>, c: string): (k: nat)
    requires c in cols
    ensures k < |cols| && cols[k] == c
    decreases |cols|
  {
    if cols[0] == c then 0
    else
      assert c in cols[1..];
      IndexOf(cols[1..], c) + 1
  }

  function CumulativeName(f: Field, result: Option<string>): string {
    if result.None? then "cumulative_" + FieldValue(f) else result.value
  }

  /** A numeric column's running totals, or the positions 1..n otherwise. */
  function CumulativeValues(col: seq<Value>): (r: seq<Value>)
    ensures |r| == |col|
    ensures Grouping.AllNumeric(col) ==> r == Grouping.RunningTotals(col)
    ensures !Grouping.AllNumeric(col) ==> r == Grouping.Positions(|col|)
  {
    if Grouping.AllNumeric(col) then Grouping.RunningTotals(col) else Grouping.Positions(|col|)
  }

  /** `cumulative`: insert the new column right after its source. */
  function CumulativeStep(s: TState, f: Field, result: Option<string>): (r: TStep)
    ensures r.state.original == s.original && r.state.fields == s.fields
    ensures FieldValue(f) !in s.df.columns ==> r == TStep(s, Fail(KeyError(FieldValue(f))))
  {
    var c := FieldValue(f);
    var name := CumulativeName(f, result);
    match GetColumn(s.df, c)
    case Err(e) => TStep(s, Fail(e))
    case Ok(col) =>
      match InsertColumn(s.df, IndexOf(s.df.columns, c) + 1, name, CumulativeValues(col))
      case Err(e) => TStep(s, Fail(e))
      case Ok(t) =>
        var m := AfterCumulative(s.meta, f, name);
        TStep(s.(df := t, meta := m.state), m.outcome)
  }

  /** The step once the column is read and the new column inserted. */
  lemma CumulativeOk(s: TState, f: Field, result: Option<string>, col: seq<Value>, t: Table)
    requires GetColumn(s.df, FieldValue(f)) == Ok(col)
    requires InsertColumn(s.df, IndexOf(s.df.columns, FieldValue(f)) + 1, CumulativeName(f, result), CumulativeValues(col)) == Ok(t)
    ensures CumulativeStep(s, f, result) ==
      TStep(s.(df := t, meta := AfterCumulative(s.meta, f, CumulativeName(f, result)).state),
            AfterCumulative(s.meta, f, CumulativeName(f, result)).outcome)
  {
    // A proof step: the column was read, so it exists.
    assert FieldValue(f) in s.df.columns;
  }

  function SortStep(s: TState, f: Field, asc: bool): (r: TStep)
    ensures r.state.fields == s.fields && r.state.meta == s.meta
  {
    match SortTable(s.df, FieldValue(f), asc)
    case Err(e) => TStep(s, Fail(e))
    case Ok(t) => TStep(s.(df := t), Pass)
  }

  /** The rows `filter(df[field], value)` selects. */
  function Kept(filter: Filter, c: string, value: Value): Row -> bool {
    (row: Row) => Holds(filter, Cell(row, c), value) == Ok(true)
  }

  predicate MaskOk(filter: Filter, col: seq<Value>, value: Value) {
    forall k :: 0 <= k < |col| ==> Holds(filter, col[k], value).Ok?
  }

  /** `filter`: keep the rows satisfying the predicate, then describe it. */
  function FilterStep(s: TState, filter: Filter, f: Field, value: Value): (r: TStep)
    ensures r.state.original == s.original && r.state.fields == s.fields
  {
    var c := FieldValue(f);
    match GetColumn(s.df, c)
    case Err(e) => TStep(s, Fail(e))
    case Ok(col) =>
      if !MaskOk(filter, col, value) then TStep(s, Fail(TypeError))
      else
        var m := AfterFilter(s.meta, filter, f, value);
        TStep(s.(df := FilterTable(s.df, Kept(filter, c, value)), meta := m.state), m.outcome)
  }

  function ResetStep(s: TState): (r: TStep)
    ensures r.state == Initial(s.original) && r.outcome == Pass
  {
    TStep(Initial(s.original), Pass)
  }

  // -----------------------------------------------------------------------
  // Properties

  /** A name that is not a field, or a reaction given with the wrong field,
      is rejected and leaves the state alone. */
  lemma AddFieldRejects(s: TState, name: string, reaction: Option<string>)
    ensures FieldOf(name).Err? ==>
      AddFieldStep(s, name, reaction).outcome.Fail? && AddFieldStep(s, name, reaction).outcome.error.ValueError?
    ensures FieldOf(name).Ok? && FieldOf(name).value != ReactionCount && Supplied(reaction) ==>
      AddFieldStep(s, name, reaction) == TStep(s, Fail(ValueError("Invalid field for reaction counts")))
  {
  }

  /** A derived column is stored under the field's name, every other column
      is kept, and the field is appended to the active fields. */
  lemma AddFieldColumn(s: TState, f: Field, reaction: Option<string>, vals: seq<Value>)
    requires Derivation(s.df, f, reaction) == Ok(Some(vals))
    ensures var r := AddFieldStep(s, FieldValue(f), reaction);
      r.outcome == Pass && r.state.fields == s.fields + [f] &&
      Column(r.state.df, FieldValue(f)) == vals &&
      forall d :: d != FieldValue(f) ==> Column(r.state.df, d) == Column(s.df, d)
  {
    FieldOfValue(f);
    SetColumnSpec(s.df, FieldValue(f), vals);
  }

  /** What a successful `add_field` stores: the maximum reaction count (0 for
      none), the named reaction's count (0 if absent), the hour or day of the
      timestamp, its calendar date in place of `date`, or the constant 1. */
  lemma AddFieldDerives(s: TState, f: Field, reaction: Option<string>, k: nat)
    requires AddFieldStep(s, FieldValue(f), reaction).outcome.Pass? && k < |s.df.rows|
    ensures var t := AddFieldStep(s, FieldValue(f), reaction).state.df;
      var cell := Cell(s.df.rows[k], FieldValue(if f == ReactionCount then Reactions else Date));
      |t.rows| == |s.df.rows| &&
      (f == ReactionCount && !Supplied(reaction) ==> cell.VReactions? && Column(t, "reaction_count")[k] == VInt(MaxCount(cell.counts))) &&
      (f == ReactionCount && Supplied(reaction) ==>
         cell.VReactions? &&
         Column(t, "reaction_count")[k] == VInt(match Get(cell.counts, reaction.value) case Some(n) => n case None => 0)) &&
      (f == Hour ==> cell.VTime? && Column(t, "hour")[k] == VInt(cell.t.hour)) &&
      (f == Day ==> cell.VTime? && Column(t, "day")[k] == VInt(cell.t.date.day)) &&
      (f == Date ==> cell.VTime? && Column(t, "date")[k] == VDate(cell.t.date)) &&
      (f == Count ==> Column(t, "count")[k] == VInt(1))
  {
    FieldOfValue(f);
    var d := Derivation(s.df, f, reaction);
    if d.value.Some? {
      SetColumnSpec(s.df, FieldValue(f), d.value.value);
    }
  }

  /** Deriving DATE overwrites `date`, so a later HOUR, DAY or DATE finds no
      timestamps and fails on the `.dt` accessor. */
  lemma DateOverwritesTimestamps(s: TState, later: Field)
    requires AddFieldStep(s, "date", None).outcome.Pass? && |s.df.rows| > 0
    requires later in {Hour, Day, Date}
    ensures AddFieldStep(AddFieldStep(s, "date", None).state, FieldValue(later), None) ==
      TStep(AddFieldStep(s, "date", None).state, Fail(AttributeError("dt")))
  {
    var t := AddFieldStep(s, "date", None).state.df;
    SetColumnSpec(s.df, "date", Derivation(s.df, Date, None).value.value);
    assert Column(t, "date")[0].VDate?;
    assert "date" in t.columns;
    FieldOfValue(later);
  }

  /** The entry `add_group_by(f, g)` leaves for a catalogued field: the
      catalog's description and label behind the aggregation's prefixes. */
  predicate Labelled(store: map<string, Stored>, f: Field, g: GroupBy) {
    f != Reactions && FieldValue(f) in store &&
    store[FieldValue(f)] == Stored(Some(DescriptionPrefix(g) + Description(f).value), Some(LabelPrefix(g) + Label(f).value))
  }

  /** The metadata loop passes exactly when no aggregated field is REACTIONS,
      and then every aggregated field holds its own aggregation's labels. */
  lemma {:induction false} AfterGroupByAllSpec(m: MetaState, aggs: Dict<Field, GroupBy>)
    requires DistinctKeys(aggs)
    ensures AfterGroupByAll(m, aggs).outcome.Pass? <==> forall j :: 0 <= j < |aggs| ==> aggs[j].0 != Reactions
    ensures AfterGroupByAll(m, aggs).outcome.Pass? ==>
      forall j :: 0 <= j < |aggs| ==> Labelled(AfterGroupByAll(m, aggs).state.store, aggs[j].0, aggs[j].1)
    decreases |aggs|
  {
    if |aggs| > 0 {
      var init := aggs[..|aggs| - 1];
      var (f, g) := aggs[|aggs| - 1];
      assert forall j :: 0 <= j < |init| ==> init[j] == aggs[j];
      AfterGroupByAllSpec(m, init);
      var before := AfterGroupByAll(m, init);
      var after := AfterGroupByAll(m, aggs);
      if before.outcome.Pass? && f != Reactions {
        assert after == AfterGroupBy(before.state, f, g);
        forall j | 0 <= j < |aggs| ensures Labelled(after.state.store, aggs[j].0, aggs[j].1) {
          if j < |aggs| - 1 {
            FieldOfValue(aggs[j].0);
            FieldOfValue(f);
            assert Labelled(before.state.store, init[j].0, init[j].1);
          }
        }
      }
    }
  }

  /** `group_by_multiple` succeeds only with exactly one unaggregated active
      field. The result is keyed by it in ascending order of distinct values
      and holds the aggregated columns in dict order. */
  lemma GroupByMultipleTable(s: TState, aggs: Dict<Field, GroupBy>)
    requires DistinctKeys(aggs) && GroupByMultipleStep(s, aggs).outcome.Pass?
    ensures Project(s.df, FieldValues(s.fields)).Ok?
    ensures |Unaggregated(FieldValues(s.fields), AggSpec(aggs))| == 1 && |aggs| > 0
    ensures var key := Unaggregated(FieldValues(s.fields), AggSpec(aggs))[0];
      var r := GroupByMultipleStep(s, aggs).state.df;
      r.columns == [key] + Keys(AggSpec(aggs)) && WellFormed(r) &&
      ColumnOf(r.rows, key) == Grouping.GroupKeys(Column(Project(s.df, FieldValues(s.fields)).value, key))
  {
    var p := Project(s.df, FieldValues(s.fields)).value;
    var key := Unaggregated(p.columns, AggSpec(aggs))[0];
    AggSpecDistinct(aggs);
    Grouping.GroupBySpec(p, key, AggSpec(aggs));
  }

  /** Each output row reduces, under every aggregated field, exactly the
      projected rows that carry its key. */
  lemma GroupByMultipleCells(s: TState, aggs: Dict<Field, GroupBy>, i: nat, j: nat)
    requires DistinctKeys(aggs) && GroupByMultipleStep(s, aggs).outcome.Pass?
    requires i < |GroupByMultipleStep(s, aggs).state.df.rows| && j < |aggs|
    ensures Project(s.df, FieldValues(s.fields)).Ok? && |Unaggregated(FieldValues(s.fields), AggSpec(aggs))| == 1
    ensures var p := Project(s.df, FieldValues(s.fields)).value;
      var key := Unaggregated(FieldValues(s.fields), AggSpec(aggs))[0];
      var row := GroupByMultipleStep(s, aggs).state.df.rows[i];
      var group := Grouping.Group(p.rows, key, Cell(row, key));
      |group| > 0 &&
      Grouping.Aggregate(Reduction(aggs[j].1), ColumnOf(group, FieldValue(aggs[j].0))) == Ok(Cell(row, FieldValue(aggs[j].0)))
  {
    var p := Project(s.df, FieldValues(s.fields)).value;
    var key := Unaggregated(p.columns, AggSpec(aggs))[0];
    AggSpecDistinct(aggs);
    Grouping.GroupBySpec(p, key, AggSpec(aggs));
    assert AggSpec(aggs)[j] == (FieldValue(aggs[j].0), Reduction(aggs[j].1));
  }

  /** After a successful `group_by_multiple`, every aggregated field is
      labelled with its own aggregation's prefixes. */
  lemma GroupByMultipleLabels(s: TState, aggs: Dict<Field, GroupBy>, j: nat)
    requires DistinctKeys(aggs) && GroupByMultipleStep(s, aggs).outcome.Pass? && j < |aggs|
    ensures Labelled(GroupByMultipleStep(s, aggs).state.meta.store, aggs[j].0, aggs[j].1)
  {
    AfterGroupByAllSpec(s.meta, aggs);
  }

  /** A labelled field's metadata, as plot labels read it, is the prefixed
      catalog text. */
  lemma LabelledMetadata(m: MetaState, f: Field, g: GroupBy)
    requires Labelled(m.store, f, g)
    ensures FieldMetadata(m, FieldValue(f)) ==
      Ok(Stored(Some(DescriptionPrefix(g) + Description(f).value), Some(LabelPrefix(g) + Label(f).value)))
  {
  }

  /** `group_by` names the first active field as key when none is given. */
  lemma GroupByDefaultKey(s: TState, g: GroupBy)
    requires |s.fields| >= 2 && Distinct(s.fields)
    requires GroupByStep(s, g, None).outcome.Pass?
    ensures GroupByStep(s, g, None).state.df.columns[0] == FieldValue(s.fields[0])
  {
    var aggs := Uniform(s.fields[1..], g);
    GroupByMultipleTable(s, aggs);
    var spec := AggSpec(aggs);
    var u := Unaggregated(FieldValues(s.fields), spec);
    assert FieldValue(s.fields[0]) in u by {
      assert FieldValue(s.fields[0]) in FieldValues(s.fields);
      if FieldValue(s.fields[0]) in Keys(spec) {
        var j :| 0 <= j < |spec| && Keys(spec)[j] == FieldValue(s.fields[0]);
        UniformKeys(s.fields[1..], g, aggs[j].0);
        FieldOfValue(aggs[j].0);
        FieldOfValue(s.fields[0]);
      }
    }
  }

  lemma {:induction false} UniformKeys(rest: seq<Field>, g: GroupBy, f: Field)
    ensures HasKey(Uniform(rest, g), f) <==> f in rest
  {
    var pairs := seq(|rest|, k requires 0 <= k < |rest| => (rest[k], g));
    FromPairsKeys(pairs, f);
    assert (exists k :: 0 <= k < |pairs| && pairs[k].0 == f) <==> f in rest by {
      if f in rest {
        var k :| 0 <= k < |rest| && rest[k] == f;
        assert pairs[k].0 == f;
      }
    }
  }

  /** Every pair of `group_by`'s aggregation dict carries the one aggregation. */
  lemma UniformValues(rest: seq<Field>, g: GroupBy)
    ensures forall j :: 0 <= j < |Uniform(rest, g)| ==> Uniform(rest, g)[j].1 == g
  {
    FromPairsValues(seq(|rest|, k requires 0 <= k < |rest| => (rest[k], g)), g);
  }

  /** With a key, every other active field is a pair `(f, g)` of the dict. */
  lemma OtherFieldAggregated(fs: seq<Field>, key: string, g: GroupBy, f: Field) returns (j: nat)
    requires f in fs && FieldValue(f) != key
    ensures j < |Uniform(OtherFields(fs, key), g)| && Uniform(OtherFields(fs, key), g)[j] == (f, g)
  {
    var aggs := Uniform(OtherFields(fs, key), g);
    UniformKeys(OtherFields(fs, key), g, f);
    UniformValues(OtherFields(fs, key), g);
    var i :| 0 <= i < |aggs| && aggs[i].0 == f;
    j := i;
  }

  /** `group_by(agg, field)` with a field that is not active aggregates every
      column, so no key is left to unpack. */
  lemma GroupByUnknownKey(s: TState, g: GroupBy, key: Option<string>)
    requires Supplied(key) && key.value !in FieldValues(s.fields)
    requires Project(s.df, FieldValues(s.fields)).Ok?
    ensures GroupByStep(s, g, key) == TStep(s.(df := Project(s.df, FieldValues(s.fields)).value), Fail(UnpackError))
  {
    var aggs := Uniform(OtherFields(s.fields, key.value), g);
    var spec := AggSpec(aggs);
    var cols := FieldValues(s.fields);
    forall c | c in cols ensures c in Keys(spec) {
      var k :| 0 <= k < |cols| && cols[k] == c;
      var j := OtherFieldAggregated(s.fields, key.value, g, s.fields[k]);
      assert Keys(spec)[j] == c;
    }
    assert GroupByStep(s, g, key) == GroupByMultipleStep(s, aggs);
  }

  /** `group_by(agg, field)` with a key: a passing step names an active field,
      the result is keyed by it, and every other active field is a column of
      the result, labelled with `agg`. */
  lemma GroupByGivenKey(s: TState, g: GroupBy, key: Option<string>)
    requires Supplied(key) && GroupByStep(s, g, key).outcome.Pass?
    ensures key.value in FieldValues(s.fields)
    ensures GroupByStep(s, g, key).state.df.columns[0] == key.value
    ensures forall f :: f in s.fields && FieldValue(f) != key.value ==>
      FieldValue(f) in GroupByStep(s, g, key).state.df.columns[1..] &&
      Labelled(GroupByStep(s, g, key).state.meta.store, f, g)
  {
    var aggs := Uniform(OtherFields(s.fields, key.value), g);
    GroupByMultipleTable(s, aggs);
    if key.value !in FieldValues(s.fields) {
      GroupByUnknownKey(s, g, key);
    }
    GroupByGivenKeyIsKey(s, g, key);
    var r := GroupByStep(s, g, key).state;
    forall f | f in s.fields && FieldValue(f) != key.value
      ensures FieldValue(f) in r.df.columns[1..] && Labelled(r.meta.store, f, g)
    {
      var j := OtherFieldAggregated(s.fields, key.value, g, f);
      assert Keys(AggSpec(aggs))[j] == FieldValue(f);
      GroupByMultipleLabels(s, aggs, j);
    }
  }

  /** The single unaggregated column of a keyed `group_by` is the key. */
  lemma GroupByGivenKeyIsKey(s: TState, g: GroupBy, key: Option<string>)
    requires Supplied(key) && key.value in FieldValues(s.fields)
    requires |Unaggregated(FieldValues(s.fields), AggSpec(Uniform(OtherFields(s.fields, key.value), g)))| == 1
    ensures Unaggregated(FieldValues(s.fields), AggSpec(Uniform(OtherFields(s.fields, key.value), g)))[0] == key.value
  {
    var rest := OtherFields(s.fields, key.value);
    var aggs := Uniform(rest, g);
    var spec := AggSpec(aggs);
    assert key.value !in Keys(spec) by {
      if key.value in Keys(spec) {
        var j :| 0 <= j < |spec| && Keys(spec)[j] == key.value;
        UniformKeys(rest, g, aggs[j].0);
      }
    }
    var u := Unaggregated(FieldValues(s.fields), spec);
    assert key.value in u;
    assert u == [u[0]];
  }

  /** Each row of a keyed `group_by` reduces, under every other active field,
      exactly the rows that carry its key, with `agg`. */
  lemma GroupByGivenKeyCells(s: TState, g: GroupBy, key: Option<string>, i: nat, f: Field)
    requires Supplied(key) && GroupByStep(s, g, key).outcome.Pass?
    requires i < |GroupByStep(s, g, key).state.df.rows|
    requires f in s.fields && FieldValue(f) != key.value
    ensures Project(s.df, FieldValues(s.fields)).Ok?
    ensures var p := Project(s.df, FieldValues(s.fields)).value;
      var row := GroupByStep(s, g, key).state.df.rows[i];
      var group := Grouping.Group(p.rows, key.value, Cell(row, key.value));
      |group| > 0 &&
      Grouping.Aggregate(Reduction(g), ColumnOf(group, FieldValue(f))) == Ok(Cell(row, FieldValue(f)))
  {
    var aggs := Uniform(OtherFields(s.fields, key.value), g);
    GroupByGivenKey(s, g, key);
    GroupByMultipleTable(s, aggs);
    GroupByGivenKeyIsKey(s, g, key);
    var j := OtherFieldAggregated(s.fields, key.value, g, f);
    GroupByMultipleCells(s, aggs, i, j);
  }

  /** `value_counts` needs exactly one active field and labels the counts as
      the SUM of COUNT, "Number of Messages". */
  lemma ValueCountsSpec(s: TState)
    requires ValueCountsStep(s).outcome.Pass?
    ensures |s.fields| == 1
    ensures ValueCountsStep(s).state.df.columns == [FieldValue(s.fields[0]), "count"]
    ensures FieldMetadata(ValueCountsStep(s).state.meta, "count") == Ok(Stored(Some("Messages"), Some("Number of Messages")))
  {
    GroupByMetadata(s.meta, Count, GroupSum);
    CountTexts();
  }

  lemma CountTexts()
    ensures DescriptionPrefix(GroupSum) + Description(Count).value == "Messages"
    ensures LabelPrefix(GroupSum) + Label(Count).value == "Number of Messages"
  {
    assert Description(Count).value == "Messages" && DescriptionPrefix(GroupSum) == "";
    assert Label(Count).value == "Messages" && LabelPrefix(GroupSum) == "Number of ";
    NumberOfMessages();
  }

  // A proof step: the catalog texts of the message count, with their
  // literals compared once.
  lemma NumberOfMessages()
    ensures "" + "Messages" == "Messages"
    ensures "Number of " + "Messages" == "Number of Messages"
  {
  }

  /** `cumulative` inserts a column named `cumulative_<field>` by default
      directly after its source, holding running totals for a numeric column
      and 1..n otherwise, without changing the row count or any other
      column (whether or not the metadata step then fails). */
  lemma CumulativeSpec(s: TState, f: Field, result: Option<string>)
    requires WellFormed(s.df)
    requires FieldValue(f) in s.df.columns && CumulativeName(f, result) !in s.df.columns
    ensures var c := FieldValue(f);
      var name := CumulativeName(f, result);
      var t := CumulativeStep(s, f, result).state.df;
      t.columns == s.df.columns[..IndexOf(s.df.columns, c) + 1] + [name] + s.df.columns[IndexOf(s.df.columns, c) + 1..] &&
      |t.rows| == |s.df.rows| && WellFormed(t) &&
      Column(t, name) == CumulativeValues(Column(s.df, c)) &&
      forall d :: d != name ==> Column(t, d) == Column(s.df, d)
  {
    var c := FieldValue(f);
    var loc := IndexOf(s.df.columns, c) + 1;
    var vals := CumulativeValues(Column(s.df, c));
    var t := InsertColumn(s.df, loc, CumulativeName(f, result), vals).value;
    CumulativeOk(s, f, result, Column(s.df, c), t);
    InsertColumnSpec(s.df, loc, CumulativeName(f, result), vals);
  }

  /** `cumulative` fails on a missing source column (KeyError), on a result
      name that is already a column (ValueError from `insert`) and on
      REACTIONS, which has no catalog entry; in that last case the column has
      already been inserted. */
  lemma CumulativeOutcome(s: TState, f: Field, result: Option<string>)
    ensures CumulativeStep(s, f, result).outcome.Pass? <==>
      FieldValue(f) in s.df.columns && CumulativeName(f, result) !in s.df.columns && f != Reactions
    ensures FieldValue(f) in s.df.columns && CumulativeName(f, result) in s.df.columns ==>
      CumulativeStep(s, f, result) ==
        TStep(s, Fail(ValueError("cannot insert " + CumulativeName(f, result) + ", already exists")))
  {
  }

  /** `filter` keeps exactly the rows satisfying the predicate, in their
      original order, and appends one clause to the description. */
  lemma FilterSpec(s: TState, filter: Filter, f: Field, value: Value)
    requires FilterStep(s, filter, f, value).outcome.Pass?
    ensures var r := FilterStep(s, filter, f, value).state;
      r.df == FilterTable(s.df, Kept(filter, FieldValue(f), value)) &&
      (forall row :: row in s.df.rows && Kept(filter, FieldValue(f), value)(row) ==> row in r.df.rows) &&
      (forall k :: 0 <= k < |r.df.rows| ==> Kept(filter, FieldValue(f), value)(r.df.rows[k]) && r.df.rows[k] in s.df.rows) &&
      r.meta.filters == s.meta.filters + [Clause(filter, f, value).value]
  {
    var p := Kept(filter, FieldValue(f), value);
    forall row | row in s.df.rows && p(row) ensures row in Where(s.df.rows, p) {
      WhereKeeps(s.df.rows, p, row);
    }
  }

  /** Two filters in turn keep the rows both predicates accept. */
  lemma FiltersCompose(s: TState, a: Filter, fa: Field, va: Value, b: Filter, fb: Field, vb: Value)
    requires FilterStep(s, a, fa, va).outcome.Pass?
    requires FilterStep(FilterStep(s, a, fa, va).state, b, fb, vb).outcome.Pass?
    ensures FilterStep(FilterStep(s, a, fa, va).state, b, fb, vb).state.df.rows ==
      Where(s.df.rows, (row: Row) => Kept(a, FieldValue(fa), va)(row) && Kept(b, FieldValue(fb), vb)(row))
  {
    WhereCompose(s.df.rows, Kept(a, FieldValue(fa), va), Kept(b, FieldValue(fb), vb));
  }

  /** After `reset`, every operation behaves as on a freshly built transformer. */
  lemma ResetIsFresh(t: Table, s: TState)
    requires s.original == t
    ensures ResetStep(s).state == Initial(t)
  {
  }

  /** The transformer object itself. */
  class DatabaseTransformer {
    const original: Table
    var df: Table
    var fields: seq<Field>
    var metadata: Metadata

    function State(): TState
      reads this, metadata
    {
      TState(original, df, fields, metadata.State())
    }

    constructor(t: Table)
      ensures State() == Initial(t) && fresh(metadata)
    {
      original := t;
      df := t;
      fields := [];
      metadata := new Metadata();
    }

    method AddField(name: string, reaction: Option<string>) returns (o: Outcome)
      modifies this
      ensures metadata == old(metadata)
      ensures TStep(State(), o) == AddFieldStep(old(State()), name, reaction)
    {
      var f := FieldOf(name);
      if f.Err? {
        return Fail(f.error);
      }
      var d := Derivation(df, f.value, reaction);
      if d.Err? {
        return Fail(d.error);
      }
      if d.value.Some? {
        df := SetColumn(df, FieldValue(f.value), d.value.value);
      }
      fields := fields + [f.value];
      return Pass;
    }

    method GroupByMultiple(aggs: Dict<Field, GroupBy>) returns (o: Outcome)
      requires DistinctKeys(aggs)
      modifies this, metadata
      ensures metadata == old(metadata)
      ensures TStep(State(), o) == GroupByMultipleStep(old(State()), aggs)
    {
      var projected := Project(df, FieldValues(fields));
      if projected.Err? {
        return Fail(projected.error);
      }
      df := projected.value;
      var spec := AggSpec(aggs);
      var keys := Unaggregated(df.columns, spec);
      if |keys| != 1 {
        return Fail(UnpackError);
      }
      if |aggs| == 0 {
        return Fail(TypeError);
      }
      AggSpecDistinct(aggs);
      var grouped := Grouping.GroupBy(df, keys[0], spec);
      if grouped.Err? {
        return Fail(grouped.error);
      }
      df := grouped.value;
      o := RecordAggregations(aggs);
    }

    /** The metadata loop of `group_by_multiple`. */
    method RecordAggregations(aggs: Dict<Field, GroupBy>) returns (o: Outcome)
      modifies metadata
      ensures MetaStep(metadata.State(), o) == AfterGroupByAll(old(metadata.State()), aggs)
    {
      ghost var m0 := metadata.State();
      var i := 0;
      while i < |aggs|
        invariant 0 <= i <= |aggs|
        invariant AfterGroupByAll(m0, aggs[..i]) == MetaStep(metadata.State(), Pass)
      {
        var step := metadata.AddGroupBy(aggs[i].0, aggs[i].1);
        assert aggs[..i + 1][..i] == aggs[..i];
        if step.Fail? {
          AfterGroupByAllFailStops(m0, aggs, i + 1);
          return step;
        }
        i := i + 1;
      }
      assert aggs[..|aggs|] == aggs;
      return Pass;
    }

    method GroupBy(g: GroupBy, key: Option<string>) returns (o: Outcome)
      modifies this, metadata
      ensures metadata == old(metadata)
      ensures TStep(State(), o) == GroupByStep(old(State()), g, key)
    {
      var rest: seq<Field>;
      if Supplied(key) {
        rest := OtherFields(fields, key.value);
      } else {
        if fields == [] {
          return Fail(UnpackError);
        }
        rest := fields[1..];
      }
      o := GroupByMultiple(Uniform(rest, g));
    }

    method ValueCounts() returns (o: Outcome)
      modifies this, metadata
      ensures metadata == old(metadata)
      ensures TStep(State(), o) == ValueCountsStep(old(State()))
    {
      if |fields| != 1 {
        return Fail(UnpackError);
      }
      var counts := Grouping.ValueCounts(df, FieldValue(fields[0]));
      if counts.Err? {
        return Fail(counts.error);
      }
      df := counts.value;
      o := metadata.AddGroupBy(Count, GroupSum);
    }

    method Cumulative(f: Field, result: Option<string>) returns (o: Outcome)
      modifies this, metadata
      ensures metadata == old(metadata)
      ensures TStep(State(), o) == CumulativeStep(old(State()), f, result)
    {
      ghost var s0 := State();
      var name := CumulativeName(f, result);
      var col := GetColumn(df, FieldValue(f));
      if col.Err? {
        return Fail(col.error);
      }
      var inserted := InsertColumn(df, IndexOf(df.columns, FieldValue(f)) + 1, name, CumulativeValues(col.value));
      if inserted.Err? {
        return Fail(inserted.error);
      }
      df := inserted.value;
      o := metadata.AddCumulative(f, name);
      CumulativeOk(s0, f, result, col.value, inserted.value);
    }

    method Sort(f: Field, asc: bool) returns (o: Outcome)
      modifies this
      ensures metadata == old(metadata)
      ensures TStep(State(), o) == SortStep(old(State()), f, asc)
    {
      var sorted := SortTable(df, FieldValue(f), asc);
      if sorted.Err? {
        return Fail(sorted.error);
      }
      df := sorted.value;
      return Pass;
    }

    method Filter(filter: Filter, f: Field, value: Value) returns (o: Outcome)
      modifies this, metadata
      ensures metadata == old(metadata)
      ensures TStep(State(), o) == FilterStep(old(State()), filter, f, value)
    {
      var col := GetColumn(df, FieldValue(f));
      if col.Err? {
        return Fail(col.error);
      }
      if !MaskOk(filter, col.value, value) {
        return Fail(TypeError);
      }
      ghost var s0 := State();
      df := FilterTable(df, Kept(filter, FieldValue(f), value));
      o := metadata.AddFilter(filter, f, value);
      assert State() == FilterStep(s0, filter, f, value).state;
    }

    method Reset()
      modifies this
      ensures fresh(metadata)
      ensures State() == ResetStep(old(State())).state
    {
      df := original;
      fields := [];
      metadata := new Metadata();
    }
  }

  lemma AfterGroupByAllFailStops(m: MetaState, aggs: Dict<Field, GroupBy>, n: nat)
    requires n <= |aggs| && AfterGroupByAll(m, aggs[..n]).outcome.Fail?
    ensures AfterGroupByAll(m, aggs) == AfterGroupByAll(m, aggs[..n])
    decreases |aggs| - n
  {
    if n < |aggs| {
      assert aggs[..n + 1][..n] == aggs[..n];
      AfterGroupByAllFailStops(m, aggs, n + 1);
    } else {
      assert aggs[..n] == aggs;
    }
  }
}
