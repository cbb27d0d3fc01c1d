/** The plot package's transformer: it builds a working table column by
    column out of a source table it never changes, groups, counts and sorts
    it, and keeps a log of one entry per operation for the titles. */
module PlotDatabaseTransformer {
  import opened Wrappers
  import opened Values
  import opened Dicts
  import opened Tables
  import opened PlotEnums
  import Grouping
  import Sorting

  /** A history entry: a small string-keyed dict. */
  type Entry = Dict<string, string>

  /** `{"operation": operation, **details}`: the details follow the
      operation, and a detail with the key "operation" overwrites it. */
  function LogEntry(operation: string, details: Dict<string, string>): (r: Entry)
    ensures DistinctKeys(r)
  {
    FromPairsDistinct([("operation", operation)] + details);
    FromPairs([("operation", operation)] + details)
  }

  lemma FromPairsSnoc(pairs: Dict<string, string>, last: (string, string))
    ensures FromPairs(pairs + [last]) == Put(FromPairs(pairs), last.0, last.1)
  {
    assert (pairs + [last])[..|pairs|] == pairs;
  }

  lemma FromPairsOne(first: (string, string))
    ensures FromPairs([first]) == [first]
  {
    assert [first][..0] == [];
  }

  function AddFieldEntry(name: string): (r: Entry)
    ensures r == [("operation", "add_field"), ("field", name)]
  {
    FromPairsOne(("operation", "add_field"));
    FromPairsSnoc([("operation", "add_field")], ("field", name));
    LogEntry("add_field", [("field", name)])
  }

  /** The grouping entry names the operation "group_by" and then the
      aggregation under the same key, so the aggregation wins. */
  function GroupByEntry(key: string, g: GroupBy): (r: Entry)
    ensures r == [("operation", GroupByValue(g)), ("field", key)]
  {
    FromPairsOne(("operation", "group_by"));
    FromPairsSnoc([("operation", "group_by")], ("field", key));
    FromPairsSnoc([("operation", "group_by"), ("field", key)], ("operation", GroupByValue(g)));
    assert [("operation", "group_by")] + [("field", key), ("operation", GroupByValue(g))] ==
      [("operation", "group_by"), ("field", key)] + [("operation", GroupByValue(g))];
    assert Put([("operation", "group_by")], "field", key) == [("operation", "group_by"), ("field", key)];
    LogEntry("group_by", [("field", key), ("operation", GroupByValue(g))])
  }

  function ValueCountsEntry(name: string): (r: Entry)
    ensures r == [("operation", "value_counts"), ("field", name)]
  {
    FromPairsOne(("operation", "value_counts"));
    FromPairsSnoc([("operation", "value_counts")], ("field", name));
    LogEntry("value_counts", [("field", name)])
  }

  function SortEntry(name: string, ascending: bool): (r: Entry)
    ensures r == [("operation", "sort"), ("field", name), ("order", if ascending then "ascending" else "descending")]
  {
    var order := if ascending then "ascending" else "descending";
    FromPairsOne(("operation", "sort"));
    FromPairsSnoc([("operation", "sort")], ("field", name));
    FromPairsSnoc([("operation", "sort"), ("field", name)], ("order", order));
    assert [("operation", "sort")] + [("field", name), ("order", order)] ==
      [("operation", "sort"), ("field", name)] + [("order", order)];
    assert Put([("operation", "sort")], "field", name) == [("operation", "sort"), ("field", name)];
    assert Put([("operation", "sort"), ("field", name)], "order", order) ==
      [("operation", "sort")] + Put([("field", name)], "order", order);
    LogEntry("sort", [("field", name), ("order", order)])
  }

  /** The working table; `permuted` records that a sort has reordered its
      rows, so its index no longer lines up position by position with the
      source's. */
  datatype DTState = DTState(current: Table, history: seq<Entry>, permuted: bool)

  datatype DTStep = DTStep(state: DTState, outcome: Outcome)

  /** `pd.DataFrame()`. */
  const EmptyTable := Table([], [])

  /** The column `add_field` takes from the source: the hour, day or
      calendar date of the "date" timestamps, or the source column itself. */
  function SourceColumn(source: Table, f: Field): (r: Result<seq<Value>>)
    ensures r.Ok? ==> |r.value| == |source.rows|
    ensures f in {Hour, Day, Date} ==> (r.Ok? <==> (FieldValue(Date) in source.columns &&
      forall k :: 0 <= k < |source.rows| ==> Column(source, "date")[k].VTime?))
    ensures f !in {Hour, Day, Date} ==> r == GetColumn(source, FieldValue(f))
    ensures r.Ok? ==> forall k :: 0 <= k < |source.rows| ==>
      var ts := Column(source, "date")[k];
      (f == Hour ==> r.value[k] == VInt(ts.t.hour)) &&
      (f == Day ==> r.value[k] == VInt(ts.t.date.day)) &&
      (f == Date ==> r.value[k] == VDate(ts.t.date)) &&
      (f !in {Hour, Day, Date} ==> r.value[k] == Column(source, FieldValue(f))[k])
  {
    if f == Hour then
      var col :- GetColumn(source, FieldValue(Date));
      MapCells(col, HourOf)
    else if f == Day then
      var col :- GetColumn(source, FieldValue(Date));
      MapCells(col, DayOf)
    else if f == Date then
      var col :- GetColumn(source, FieldValue(Date));
      MapCells(col, CalendarDateOf)
    else GetColumn(source, FieldValue(f))
  }

  /** `current[name] = column`. An empty table takes the column and its
      index; otherwise pandas aligns on the index, which matches position
      by position until a sort has reordered the rows. */
  function Assign(current: Table, permuted: bool, name: string, vals: seq<Value>): (r: Result<Table>)
    ensures current.columns == [] ==> r.Ok? && r.value.columns == [name] && Column(r.value, name) == vals
    ensures current.columns != [] && !permuted && |current.rows| <= |vals| ==>
      r == Ok(SetColumn(current, name, vals[..|current.rows|]))
    ensures r.Err? ==> r.error.Unmodelled?
  {
    if current.columns == [] then
      var t := Table([name], seq(|vals|, k requires 0 <= k < |vals| => map[name := vals[k]]));
      assert Column(t, name) == vals;
      Ok(t)
    else if permuted then Err(Unmodelled("index alignment with reordered rows"))
    else if |current.rows| > |vals| then Err(Unmodelled("missing values after index alignment"))
    else Ok(SetColumn(current, name, vals[..|current.rows|]))
  }

  /** `add_field(field)`. */
  function AddFieldStep(source: Table, s: DTState, f: Field): (r: DTStep)
    ensures r.outcome.Fail? ==> r.state == s
    ensures r.outcome.Pass? <==> (SourceColumn(source, f).Ok? &&
      Assign(s.current, s.permuted, FieldValue(f), SourceColumn(source, f).value).Ok?)
    ensures r.outcome.Pass? ==>
      r.state == DTState(Assign(s.current, s.permuted, FieldValue(f), SourceColumn(source, f).value).value,
                         s.history + [AddFieldEntry(FieldValue(f))], s.permuted)
  {
    match SourceColumn(source, f)
    case Err(e) => DTStep(s, Fail(e))
    case Ok(vals) =>
      match Assign(s.current, s.permuted, FieldValue(f), vals)
      case Err(e) => DTStep(s, Fail(e))
      case Ok(t) => DTStep(DTState(t, s.history + [AddFieldEntry(FieldValue(f))], s.permuted), Pass)
  }

  /** Every remaining column aggregated with the same reduction. */
  function SameReduction(rest: seq<string>, g: GroupBy): (r: Dict<string, Grouping.Agg>)
    ensures Keys(r) == rest
    ensures forall k :: 0 <= k < |r| ==> r[k].1 == Reduction(g)
    ensures Sorting.Distinct(rest) ==> DistinctKeys(r)
  {
    var r := seq(|rest|, k requires 0 <= k < |rest| => (rest[k], Reduction(g)));
    assert Keys(r) == rest;
    r
  }

  /** `group_by(operation)`: `field, *rest = current` keys on the first
      column and aggregates all the others with the same reduction. */
  function GroupByStep(s: DTState, g: GroupBy): (r: DTStep)
    ensures r.outcome.Fail? ==> r.state == s
    ensures s.current.columns == [] ==> r == DTStep(s, Fail(UnpackError))
    ensures r.outcome.Pass? ==> (s.current.columns != [] &&
      var key := s.current.columns[0];
      var aggs := SameReduction(s.current.columns[1..], g);
      DistinctKeys(aggs) && Grouping.GroupBy(s.current, key, aggs).Ok? &&
      r.state == DTState(Grouping.GroupBy(s.current, key, aggs).value, s.history + [GroupByEntry(key, g)], false))
  {
    if s.current.columns == [] then DTStep(s, Fail(UnpackError))
    else if !Sorting.Distinct(s.current.columns) then DTStep(s, Fail(Unmodelled("duplicate column names")))
    else
      var key := s.current.columns[0];
      var aggs := SameReduction(s.current.columns[1..], g);
      match Grouping.GroupBy(s.current, key, aggs)
      case Err(e) => DTStep(s, Fail(e))
      case Ok(t) => DTStep(DTState(t, s.history + [GroupByEntry(key, g)], false), Pass)
  }

  /** `value_counts()`: `(field,) = current` demands exactly one column. */
  function ValueCountsStep(s: DTState): (r: DTStep)
    ensures r.outcome.Fail? ==> r.state == s
    ensures |s.current.columns| != 1 ==> r == DTStep(s, Fail(UnpackError))
    ensures r.outcome.Pass? ==> (|s.current.columns| == 1 &&
      var c := s.current.columns[0];
      Grouping.ValueCounts(s.current, c).Ok? &&
      r.state == DTState(Grouping.ValueCounts(s.current, c).value, s.history + [ValueCountsEntry(c)], false))
  {
    if |s.current.columns| != 1 then DTStep(s, Fail(UnpackError))
    else
      var c := s.current.columns[0];
      match Grouping.ValueCounts(s.current, c)
      case Err(e) => DTStep(s, Fail(e))
      case Ok(t) => DTStep(DTState(t, s.history + [ValueCountsEntry(c)], false), Pass)
  }

  /** `sort(field, ascending)`. */
  function SortStep(s: DTState, f: Field, ascending: bool): (r: DTStep)
    ensures r.outcome.Fail? ==> r.state == s
    ensures r.outcome.Pass? <==> SortTable(s.current, FieldValue(f), ascending).Ok?
    ensures r.outcome.Pass? ==>
      r.state == DTState(SortTable(s.current, FieldValue(f), ascending).value,
                         s.history + [SortEntry(FieldValue(f), ascending)], true)
  {
    match SortTable(s.current, FieldValue(f), ascending)
    case Err(e) => DTStep(s, Fail(e))
    case Ok(t) => DTStep(DTState(t, s.history + [SortEntry(FieldValue(f), ascending)], true), Pass)
  }

  /** `reset()`. */
  function ResetStep(s: DTState): (r: DTState)
    ensures r.current.columns == [] && r.current.rows == [] && r.history == []
  {
    DTState(EmptyTable, [], false)
  }

  // ---------------------------------------------------------------------
  // Sequences of operations

  datatype Op = AddFieldOp(f: Field) | GroupByOp(g: GroupBy) | ValueCountsOp | SortOp(field: Field, ascending: bool)

  function Apply(source: Table, s: DTState, op: Op): (r: DTStep)
    ensures r.outcome.Fail? ==> r.state == s
    ensures r.outcome.Pass? ==> |r.state.history| == |s.history| + 1 && r.state.history[..|s.history|] == s.history
  {
    match op
    case AddFieldOp(f) => AddFieldStep(source, s, f)
    case GroupByOp(g) => GroupByStep(s, g)
    case ValueCountsOp => ValueCountsStep(s)
    case SortOp(f, asc) => SortStep(s, f, asc)
  }

  /** Chained calls, the first exception ending the chain. */
  function Run(source: Table, s: DTState, ops: seq<Op>): (r: DTStep)
    ensures |s.history| <= |r.state.history| <= |s.history| + |ops| && r.state.history[..|s.history|] == s.history
    ensures r.outcome.Pass? ==> |r.state.history| == |s.history| + |ops|
    decreases |ops|
  {
    if |ops| == 0 then DTStep(s, Pass)
    else
      var prev := Run(source, s, ops[..|ops| - 1]);
      if prev.outcome.Fail? then prev else Apply(source, prev.state, ops[|ops| - 1])
  }

  /** The "operation" a call logs: the aggregation's value for a grouping. */
  function Logged(op: Op): string {
    match op
    case AddFieldOp(_) => "add_field"
    case GroupByOp(g) => GroupByValue(g)
    case ValueCountsOp => "value_counts"
    case SortOp(_, _) => "sort"
  }

  /** The entry names the operation the call logs, and an added field's
      entry names its column. */
  predicate Logs(e: Entry, op: Op) {
    Get(e, "operation") == Some(Logged(op)) &&
    (op.AddFieldOp? ==> Get(e, "field") == Some(FieldValue(op.f)))
  }

  /** Every successful call appends exactly one entry, and it logs the call. */
  lemma ApplyLogs(source: Table, s: DTState, op: Op)
    requires Apply(source, s, op).outcome.Pass?
    ensures var h := Apply(source, s, op).state.history;
      |h| == |s.history| + 1 && h == s.history + [h[|s.history|]] && Logs(h[|s.history|], op)
  {
  }

  /** A failing call logs nothing and changes nothing. */
  lemma ApplyFailureKeepsState(source: Table, s: DTState, op: Op)
    requires Apply(source, s, op).outcome.Fail?
    ensures Apply(source, s, op).state == s
  {
  }

  /** A log of `base` followed by one entry per call of `ops`. */
  predicate LogsAfter(h: seq<Entry>, base: seq<Entry>, ops: seq<Op>) {
    |h| == |base| + |ops| && h[..|base|] == base &&
    forall i :: 0 <= i < |ops| ==> Logs(h[|base| + i], ops[i])
  }

  lemma LogsAfterSnoc(h: seq<Entry>, base: seq<Entry>, ops: seq<Op>, e: Entry)
    requires |ops| > 0 && LogsAfter(h, base, ops[..|ops| - 1]) && Logs(e, ops[|ops| - 1])
    ensures LogsAfter(h + [e], base, ops)
  {
    var h2 := h + [e];
    forall i | 0 <= i < |ops| ensures Logs(h2[|base| + i], ops[i]) {
      if i < |ops| - 1 {
        assert h2[|base| + i] == h[|base| + i];
      }
    }
    assert h2[..|base|] == h[..|base|];
  }

  /** A chain that succeeds succeeded before its last call, which then ran
      on the state the chain had reached. */
  lemma RunLast(source: Table, s: DTState, ops: seq<Op>)
    requires |ops| > 0 && Run(source, s, ops).outcome.Pass?
    ensures Run(source, s, ops[..|ops| - 1]).outcome.Pass?
    ensures Run(source, s, ops) == Apply(source, Run(source, s, ops[..|ops| - 1]).state, ops[|ops| - 1])
  {
  }

  /** One history entry per call, in call order. */
  lemma {:induction false} RunLogs(source: Table, s: DTState, ops: seq<Op>)
    requires Run(source, s, ops).outcome.Pass?
    ensures LogsAfter(Run(source, s, ops).state.history, s.history, ops)
    decreases |ops|
  {
    if |ops| == 0 {
      assert s.history[..|s.history|] == s.history;
    } else {
      var init := ops[..|ops| - 1];
      var last := ops[|ops| - 1];
      RunLast(source, s, ops);
      RunLogs(source, s, init);
      var prev := Run(source, s, init).state;
      ApplyLogs(source, prev, last);
      var e := Apply(source, prev, last).state.history[|prev.history|];
      LogsAfterSnoc(prev.history, s.history, ops, e);
      assert Run(source, s, ops).state.history == prev.history + [e];
    }
  }

  /** The working table's columns never repeat a name. */
  predicate Valid(s: DTState) {
    Sorting.Distinct(s.current.columns)
  }

  lemma ApplyKeepsValid(source: Table, s: DTState, op: Op)
    requires Valid(s)
    ensures Valid(Apply(source, s, op).state)
  {
    match op
    case AddFieldOp(f) =>
      var r := AddFieldStep(source, s, f);
      if r.outcome.Pass? {
        var c := r.state.current.columns;
        if s.current.columns != [] {
          forall i, j | 0 <= i < j < |c| ensures c[i] != c[j] {
            if j == |s.current.columns| { assert c[i] == s.current.columns[i]; }
          }
        }
      }
    case GroupByOp(g) =>
      var r := GroupByStep(s, g);
      if r.outcome.Pass? {
        var c := r.state.current.columns;
        assert c == [s.current.columns[0]] + s.current.columns[1..];
        assert c == s.current.columns;
      }
    case ValueCountsOp =>
    case SortOp(_, _) =>
  }

  /** Grouping a table without repeated columns never takes the
      duplicate-name branch. */
  lemma GroupByDistinct(s: DTState, g: GroupBy)
    requires Valid(s) && s.current.columns != []
    ensures var aggs := SameReduction(s.current.columns[1..], g);
      GroupByStep(s, g).outcome == (match Grouping.GroupBy(s.current, s.current.columns[0], aggs)
                                    case Ok(_) => Pass case Err(e) => Fail(e))
  {
  }

  /** An added field holds the hour, day or date of the source timestamps,
      or the source column, row by row. */
  lemma AddFieldFromSource(source: Table, s: DTState, f: Field, k: nat)
    requires AddFieldStep(source, s, f).outcome.Pass?
    requires k < |AddFieldStep(source, s, f).state.current.rows|
    ensures k < |source.rows|
    ensures var col := Column(AddFieldStep(source, s, f).state.current, FieldValue(f));
      var ts := Column(source, "date")[k];
      (f == Hour ==> ts.VTime? && col[k] == VInt(ts.t.hour)) &&
      (f == Day ==> ts.VTime? && col[k] == VInt(ts.t.date.day)) &&
      (f == Date ==> ts.VTime? && col[k] == VDate(ts.t.date)) &&
      (f !in {Hour, Day, Date} ==> col[k] == Column(source, FieldValue(f))[k])
  {
    var vals := SourceColumn(source, f).value;
    if s.current.columns != [] {
      SetColumnSpec(s.current, FieldValue(f), vals[..|s.current.rows|]);
    }
  }

  /** Adding a field to the empty table yields the one column; adding more
      keeps the earlier columns as they were. */
  lemma AddFieldKeepsOthers(source: Table, s: DTState, f: Field, c: string)
    requires AddFieldStep(source, s, f).outcome.Pass? && s.current.columns != [] && c != FieldValue(f)
    ensures Column(AddFieldStep(source, s, f).state.current, c) == Column(s.current, c)
  {
    var vals := SourceColumn(source, f).value;
    SetColumnSpec(s.current, FieldValue(f), vals[..|s.current.rows|]);
  }

  /** Grouping keys on the oldest column; the columns stay in place and the
      entry's "operation" is the aggregation, not "group_by". */
  lemma GroupByOnOldest(s: DTState, g: GroupBy)
    requires GroupByStep(s, g).outcome.Pass?
    ensures GroupByStep(s, g).state.current.columns == s.current.columns
    ensures var e := GroupByStep(s, g).state.history[|s.history|];
      Get(e, "operation") == Some(GroupByValue(g)) && Get(e, "operation") != Some("group_by") &&
      Get(e, "field") == Some(s.current.columns[0])
  {
    var c := GroupByStep(s, g).state.current.columns;
    assert c == [s.current.columns[0]] + s.current.columns[1..];
  }

  /** `sort` logs the direction. */
  lemma SortLogsOrder(s: DTState, f: Field, ascending: bool)
    requires SortStep(s, f, ascending).outcome.Pass?
    ensures Get(SortStep(s, f, ascending).state.history[|s.history|], "order") ==
      Some(if ascending then "ascending" else "descending")
    ensures Sorting.SortedBy(SortStep(s, f, ascending).state.current.rows,
      (row: Row) => Cell(row, FieldValue(f)), ascending)
  {
  }

  class DatabaseTransformer {
    /** The source table, which no operation writes. */
    const source: Table
    var current: Table
    var history: seq<Entry>
    var permuted: bool

    function State(): DTState
      reads this
    {
      DTState(current, history, permuted)
    }

    /** `__init__`: an empty working table and an empty log. */
    constructor(df: Table)
      ensures source == df && State() == DTState(EmptyTable, [], false)
    {
      source := df;
      current := EmptyTable;
      history := [];
      permuted := false;
    }

    method AddField(f: Field) returns (o: Outcome)
      modifies this
      ensures DTStep(State(), o) == AddFieldStep(source, old(State()), f)
    {
      var vals := SourceColumn(source, f);
      if vals.Err? {
        return Fail(vals.error);
      }
      var t := Assign(current, permuted, FieldValue(f), vals.value);
      if t.Err? {
        return Fail(t.error);
      }
      current := t.value;
      history := history + [AddFieldEntry(FieldValue(f))];
      return Pass;
    }

    method GroupBy(g: GroupBy) returns (o: Outcome)
      modifies this
      ensures DTStep(State(), o) == GroupByStep(old(State()), g)
    {
      if current.columns == [] {
        return Fail(UnpackError);
      }
      if !Sorting.Distinct(current.columns) {
        return Fail(Unmodelled("duplicate column names"));
      }
      var key := current.columns[0];
      var grouped := Grouping.GroupBy(current, key, SameReduction(current.columns[1..], g));
      if grouped.Err? {
        return Fail(grouped.error);
      }
      current := grouped.value;
      history := history + [GroupByEntry(key, g)];
      permuted := false;
      return Pass;
    }

    method ValueCounts() returns (o: Outcome)
      modifies this
      ensures DTStep(State(), o) == ValueCountsStep(old(State()))
    {
      if |current.columns| != 1 {
        return Fail(UnpackError);
      }
      var c := current.columns[0];
      var counts := Grouping.ValueCounts(current, c);
      if counts.Err? {
        return Fail(counts.error);
      }
      current := counts.value;
      history := history + [ValueCountsEntry(c)];
      permuted := false;
      return Pass;
    }

    method Sort(f: Field, ascending: bool) returns (o: Outcome)
      modifies this
      ensures DTStep(State(), o) == SortStep(old(State()), f, ascending)
    {
      var sorted := SortTable(current, FieldValue(f), ascending);
      if sorted.Err? {
        return Fail(sorted.error);
      }
      current := sorted.value;
      history := history + [SortEntry(FieldValue(f), ascending)];
      permuted := true;
      return Pass;
    }

    method Reset()
      modifies this
      ensures State() == ResetStep(old(State()))
    {
      current := EmptyTable;
      history := [];
      permuted := false;
    }
  }
}
