/** The plot package's figure step: the first two columns of the final
    table are the axes, and the title lists the added fields from the
    transformer's log. */
module PlotTransformer {
  import opened Wrappers
  import opened Values
  import opened Dicts
  import opened Tables
  import opened PlotEnums
  import opened PlotDatabaseTransformer

  /** What the chart function is called with. */
  datatype Figure = Figure(kind: Plot, table: Table, x: string, y: string, title: string)

  /** `op["field"] for op in history if op["operation"] == "add_field"`,
      where a missing key raises. */
  function AddedFields(history: seq<Entry>): (r: Result<seq<string>>)
    ensures r.Ok? ==> |r.value| <= |history|
    decreases |history|
  {
    if |history| == 0 then Ok([])
    else
      var names :- AddedFields(history[..|history| - 1]);
      var e := history[|history| - 1];
      match Get(e, "operation")
      case None => Err(KeyError("operation"))
      case Some(op) =>
        if op != "add_field" then Ok(names)
        else
          match Get(e, "field")
          case None => Err(KeyError("field"))
          case Some(name) => Ok(names + [name])
  }

  /** `_generate_labels(history)`: the added fields joined with " vs. ". */
  function Title(history: seq<Entry>): (r: Result<string>)
    ensures r.Ok? <==> AddedFields(history).Ok?
    ensures r.Ok? ==> r.value == Join(" vs. ", AddedFields(history).value)
  {
    var names :- AddedFields(history);
    Ok(Join(" vs. ", names))
  }

  /** `PlotTransformer(df, history, plot_type)`. */
  function Transform(df: Table, history: seq<Entry>, kind: Plot): (r: Result<Figure>)
    ensures |df.columns| < 2 ==> r == Err(ValueError("Not enough data columns to plot."))
    ensures r.Ok? <==> |df.columns| >= 2 && Title(history).Ok?
    ensures r.Ok? ==> r.value == Figure(kind, df, df.columns[0], df.columns[1], Title(history).value)
  {
    if |df.columns| < 2 then Err(ValueError("Not enough data columns to plot."))
    else
      var title :- Title(history);
      Ok(Figure(kind, df, df.columns[0], df.columns[1], title))
  }

  lemma {:induction false} JoinSnoc(sep: string, parts: seq<string>, p: string)
    ensures Join(sep, parts + [p]) == if parts == [] then p else Join(sep, parts) + sep + p
    decreases |parts|
  {
    if |parts| == 1 {
      assert (parts + [p])[1..] == [p];
    } else if |parts| > 1 {
      assert (parts + [p])[1..] == parts[1..] + [p];
      JoinSnoc(sep, parts[1..], p);
    }
  }

  /** Entries of other operations do not change the title. */
  lemma OtherEntriesIgnored(history: seq<Entry>, e: Entry, op: string)
    requires Get(e, "operation") == Some(op) && op != "add_field"
    ensures AddedFields(history + [e]) == AddedFields(history)
  {
    assert (history + [e])[..|history|] == history;
  }

  /** An added field extends the title by " vs. " and its name. */
  lemma AddedFieldExtendsTitle(history: seq<Entry>, name: string)
    requires Title(history).Ok?
    ensures var e := [("operation", "add_field"), ("field", name)];
      Title(history + [e]) ==
        Ok(if AddedFields(history).value == [] then name else Title(history).value + " vs. " + name)
  {
    var e := [("operation", "add_field"), ("field", name)];
    assert (history + [e])[..|history|] == history;
    assert Get(e, "operation") == Some("add_field");
    assert Get(e, "field") == Some(name);
    JoinSnoc(" vs. ", AddedFields(history).value, name);
  }

  /** A log without `add_field` entries gives the empty title. */
  lemma {:induction false} NoAddedFieldsEmptyTitle(history: seq<Entry>)
    requires forall i :: 0 <= i < |history| ==>
      Get(history[i], "operation").Some? && Get(history[i], "operation") != Some("add_field")
    ensures Title(history) == Ok("")
    decreases |history|
  {
    if |history| > 0 {
      var init := history[..|history| - 1];
      assert forall i :: 0 <= i < |init| ==> init[i] == history[i];
      NoAddedFieldsEmptyTitle(init);
      OtherEntriesIgnored(init, history[|history| - 1], Get(history[|history| - 1], "operation").value);
      assert init + [history[|history| - 1]] == history;
    }
  }

  /** The column names of the calls that added a field, in call order. */
  function AddedNames(ops: seq<Op>): (r: seq<string>)
    ensures |r| <= |ops|
    decreases |ops|
  {
    if |ops| == 0 then []
    else
      var names := AddedNames(ops[..|ops| - 1]);
      match ops[|ops| - 1]
      case AddFieldOp(f) => names + [FieldValue(f)]
      case _ => names
  }

  lemma LogsAfterPrefix(h: seq<Entry>, ops: seq<Op>)
    requires |ops| > 0 && LogsAfter(h, [], ops)
    ensures LogsAfter(h[..|h| - 1], [], ops[..|ops| - 1])
    ensures Logs(h[|h| - 1], ops[|ops| - 1])
  {
    var h0, ops0 := h[..|h| - 1], ops[..|ops| - 1];
    forall i | 0 <= i < |ops0| ensures Logs(h0[i], ops0[i]) {
      assert Logs(h[0 + i], ops[i]);
    }
    assert Logs(h[0 + (|ops| - 1)], ops[|ops| - 1]);
  }

  /** A log written by the transformer's calls names exactly the added
      fields, in call order: groupings log their aggregation, so they never
      count. */
  lemma {:induction false} LoggedAddedFields(h: seq<Entry>, ops: seq<Op>)
    requires LogsAfter(h, [], ops)
    ensures AddedFields(h) == Ok(AddedNames(ops))
    decreases |ops|
  {
    if |ops| > 0 {
      var h0 := h[..|h| - 1];
      var e := h[|h| - 1];
      LogsAfterPrefix(h, ops);
      LoggedAddedFields(h0, ops[..|ops| - 1]);
      assert h0 + [e] == h;
      match ops[|ops| - 1]
      case AddFieldOp(f) =>
        assert Get(e, "field") == Some(FieldValue(f));
      case GroupByOp(g) =>
        OtherEntriesIgnored(h0, e, GroupByValue(g));
      case ValueCountsOp =>
        OtherEntriesIgnored(h0, e, "value_counts");
      case SortOp(_, _) =>
        OtherEntriesIgnored(h0, e, "sort");
    }
  }

  /** From a fresh or reset transformer, the figure's title joins the added
      fields' names with " vs. ", whatever else was called in between. */
  lemma TitleFromCalls(source: Table, s: DTState, ops: seq<Op>)
    requires s.history == [] && Run(source, s, ops).outcome.Pass?
    ensures Title(Run(source, s, ops).state.history) == Ok(Join(" vs. ", AddedNames(ops)))
  {
    RunLogs(source, s, ops);
    LoggedAddedFields(Run(source, s, ops).state.history, ops);
  }
}
