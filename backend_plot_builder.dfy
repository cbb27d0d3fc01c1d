/** The backend's lazy plot builder: every configuration call appends one
    operation to a queue, and `build` replays the queue in insertion order
    against the table transformer and the plot state. The plot transformer
    itself is not part of this model: a plot step records the figure it
    would initialise from, and the figure mutations are recorded in order. */
module BackendPlotBuilder {
  import opened Wrappers
  import opened Values
  import opened Dicts
  import opened Tables
  import opened BackendEnums
  import opened BackendMetadata
  import opened BackendTransformer

  /** A Python dict of aggregations: its keys are distinct. */
  type Aggregations = d: Dict<Field, GroupBy> | DistinctKeys(d) witness []

  /** A queued call, with its arguments. */
  datatype Op =
    | AddFieldOp(field: Field)
    | GroupByOp(agg: GroupBy, key: Option<string>)
    | GroupByMultipleOp(aggs: Aggregations)
    | FilterOp(filter: Filter, on: Field, value: Value)
    | SortOp(sortBy: Field, ascending: bool)
    | ValueCountsOp
    | CumulativeOp(source: Field, result: Option<string>)
    | BuildPlotOp(kind: Plot, x: Option<string>, y: Option<string>)
    | XLogOp
    | YLogOp
    | MovingAverageOp(window: Value, name: Option<string>)

  /** The calls the transformer answers. */
  predicate TransformerOp(op: Op) {
    !(op.BuildPlotOp? || op.XLogOp? || op.YLogOp? || op.MovingAverageOp?)
  }

  /** What the plot initialiser receives: the chart kind, the transformer's
      current table and metadata, and the optional axis fields. */
  datatype Figure = Figure(kind: Plot, table: Table, meta: MetaState, x: Option<string>, y: Option<string>)

  datatype Mutation = XLog | YLog | MovingAverage(window: Value, name: Option<string>)

  datatype PlotState = PlotState(figure: Option<Figure>, mutations: seq<Mutation>)

  const NoPlot: PlotState := PlotState(None, [])

  datatype BState = BState(db: TState, plot: PlotState)

  datatype BStep = BStep(state: BState, outcome: Outcome)

  function FromTransformer(s: BState, r: TStep): (b: BStep)
    ensures b.state.plot == s.plot && b.state.db == r.state && b.outcome == r.outcome
  {
    BStep(s.(db := r.state), r.outcome)
  }

  /** `_build_plot`: only one figure per builder. */
  function BuildPlot(s: BState, kind: Plot, x: Option<string>, y: Option<string>): (r: BStep)
    ensures s.plot.figure.Some? <==> r.outcome.Fail?
    ensures s.plot.figure.Some? ==> r == BStep(s, Fail(ValueError("Plot already created!")))
    ensures s.plot.figure.None? ==>
      r.state.db == s.db && r.state.plot.figure == Some(Figure(kind, s.db.df, s.db.meta, x, y))
  {
    if s.plot.figure.Some? then BStep(s, Fail(ValueError("Plot already created!")))
    else BStep(s.(plot := s.plot.(figure := Some(Figure(kind, s.db.df, s.db.meta, x, y)))), Pass)
  }

  function Mutate(s: BState, m: Mutation): (r: BStep)
    ensures r.outcome == Pass && r.state.db == s.db && r.state.plot.figure == s.plot.figure
    ensures r.state.plot.mutations == s.plot.mutations + [m]
  {
    BStep(s.(plot := s.plot.(mutations := s.plot.mutations + [m])), Pass)
  }

  /** One queued call, run. */
  function Execute(s: BState, op: Op): (r: BStep)
    ensures !op.BuildPlotOp? ==> r.state.plot.figure == s.plot.figure
    ensures s.plot.figure.Some? ==> r.state.plot.figure == s.plot.figure
  {
    match op
    case AddFieldOp(f) => FromTransformer(s, AddFieldStep(s.db, FieldValue(f), None))
    case GroupByOp(g, key) => FromTransformer(s, GroupByStep(s.db, g, key))
    case GroupByMultipleOp(aggs) => FromTransformer(s, GroupByMultipleStep(s.db, aggs))
    case FilterOp(filter, f, value) => FromTransformer(s, FilterStep(s.db, filter, f, value))
    case SortOp(f, asc) => FromTransformer(s, SortStep(s.db, f, asc))
    case ValueCountsOp => FromTransformer(s, ValueCountsStep(s.db))
    case CumulativeOp(f, result) => FromTransformer(s, CumulativeStep(s.db, f, result))
    case BuildPlotOp(kind, x, y) => BuildPlot(s, kind, x, y)
    case XLogOp => Mutate(s, XLog)
    case YLogOp => Mutate(s, YLog)
    case MovingAverageOp(w, name) => Mutate(s, MovingAverage(w, name))
  }

  /** `build`: the queue run front to back; the first exception ends the run
      and leaves the state the earlier calls produced. */
  function Replay(s: BState, ops: seq<Op>): (r: BStep)
    ensures ops == [] ==> r == BStep(s, Pass)
    decreases |ops|
  {
    if |ops| == 0 then BStep(s, Pass)
    else
      var before := Replay(s, ops[..|ops| - 1]);
      if before.outcome.Fail? then before else Execute(before.state, ops[|ops| - 1])
  }

  /** Replaying a queue is replaying its front and then, if that passed, its
      back: the calls run strictly in insertion order. */
  lemma {:induction false} ReplayConcat(s: BState, front: seq<Op>, back: seq<Op>)
    ensures Replay(s, front + back) ==
      if Replay(s, front).outcome.Fail? then Replay(s, front)
      else Replay(Replay(s, front).state, back)
    decreases |back|
  {
    if |back| == 0 {
      assert front + back == front;
    } else {
      var init := back[..|back| - 1];
      assert (front + back)[..|front + back| - 1] == front + init;
      assert (front + back)[|front + back| - 1] == back[|back| - 1];
      ReplayConcat(s, front, init);
    }
  }

  /** A figure, once created, stays. */
  lemma {:induction false} FigureStays(s: BState, ops: seq<Op>)
    requires s.plot.figure.Some?
    ensures Replay(s, ops).state.plot.figure == s.plot.figure
    decreases |ops|
  {
    if |ops| > 0 {
      FigureStays(s, ops[..|ops| - 1]);
    }
  }

  /** A queue holding a plot step cannot be replayed on a state that already
      has a figure: the run fails, at the plot step at the latest. */
  lemma {:induction false} ReplayWithFigureFails(s: BState, ops: seq<Op>, k: nat)
    requires s.plot.figure.Some? && k < |ops| && ops[k].BuildPlotOp?
    ensures Replay(s, ops).outcome.Fail?
    decreases |ops|
  {
    var init := ops[..|ops| - 1];
    if k < |ops| - 1 {
      assert init[k] == ops[k];
      ReplayWithFigureFails(s, init, k);
    } else {
      var before := Replay(s, init);
      if before.outcome.Pass? {
        FigureStays(s, init);
      }
    }
  }

  /** A successful first `build` of a queue with a plot step makes a second
      `build` fail, because the queue is not cleared. */
  lemma SecondBuildFails(s: BState, ops: seq<Op>, k: nat)
    requires k < |ops| && ops[k].BuildPlotOp? && Replay(s, ops).outcome.Pass?
    ensures Replay(s, ops).state.plot.figure.Some?
    ensures Replay(Replay(s, ops).state, ops).outcome.Fail?
  {
    ReplayCreatesFigure(s, ops, k);
    ReplayWithFigureFails(Replay(s, ops).state, ops, k);
  }

  /** A run that passed a plot step leaves a figure behind. */
  lemma {:induction false} ReplayCreatesFigure(s: BState, ops: seq<Op>, k: nat)
    requires k < |ops| && ops[k].BuildPlotOp? && Replay(s, ops).outcome.Pass?
    ensures Replay(s, ops).state.plot.figure.Some?
    decreases |ops|
  {
    var init := ops[..|ops| - 1];
    if k < |ops| - 1 {
      assert init[k] == ops[k];
      ReplayCreatesFigure(s, init, k);
    }
  }

  /** `figure`: available only once a plot step has run. */
  function FigureOf(p: PlotState): (r: Result<Figure>)
    ensures r.Err? <==> p.figure.None?
    ensures r.Err? ==> r.error == ValueError("Plot has not been created yet!")
    ensures r.Ok? ==> r.value == p.figure.value
  {
    if p.figure.None? then Err(ValueError("Plot has not been created yet!")) else Ok(p.figure.value)
  }

  /** A fresh builder has no figure until built. */
  lemma FreshBuilderHasNoFigure(t: Table)
    ensures FigureOf(BState(Initial(t), NoPlot).plot) == Err(ValueError("Plot has not been created yet!"))
  {
  }

  /** A queue with one plot step, replayed on a fresh state, gives the
      figure of the table and metadata the earlier calls produced. */
  lemma {:induction false} PlotSeesEarlierCalls(s: BState, ops: seq<Op>, kind: Plot, x: Option<string>, y: Option<string>)
    requires s.plot.figure.None? && Replay(s, ops).outcome.Pass?
    requires forall k :: 0 <= k < |ops| ==> !ops[k].BuildPlotOp?
    ensures var before := Replay(s, ops).state;
      Replay(s, ops + [BuildPlotOp(kind, x, y)]) ==
        BStep(before.(plot := before.plot.(figure := Some(Figure(kind, before.db.df, before.db.meta, x, y)))), Pass)
  {
    NoPlotWithoutPlotStep(s, ops);
    ReplayConcat(s, ops, [BuildPlotOp(kind, x, y)]);
    assert [BuildPlotOp(kind, x, y)][..0] == [];
  }

  lemma {:induction false} NoPlotWithoutPlotStep(s: BState, ops: seq<Op>)
    requires s.plot.figure.None?
    requires forall k :: 0 <= k < |ops| ==> !ops[k].BuildPlotOp?
    ensures Replay(s, ops).state.plot.figure.None?
    decreases |ops|
  {
    if |ops| > 0 {
      NoPlotWithoutPlotStep(s, ops[..|ops| - 1]);
    }
  }

  class PlotBuilder {
    const database: DatabaseTransformer
    var plot: PlotState
    var operations: seq<Op>

    function State(): BState
      reads this, database, database.metadata
    {
      BState(database.State(), plot)
    }

    constructor(t: Table)
      ensures State() == BState(Initial(t), NoPlot) && operations == []
      ensures fresh(database) && fresh(database.metadata)
    {
      database := new DatabaseTransformer(t);
      plot := NoPlot;
      operations := [];
    }

    /** `_queue_operation`: append, run nothing. */
    method Queue(op: Op)
      modifies this
      ensures operations == old(operations) + [op] && plot == old(plot)
    {
      operations := operations + [op];
    }

    /** `author`, `date`, `hour`, `day`, `reactions`, `reaction_count`,
        `word_count`, `channel_name` and `count`. */
    method AddField(f: Field)
      modifies this
      ensures operations == old(operations) + [AddFieldOp(f)] && plot == old(plot)
    {
      Queue(AddFieldOp(f));
    }

    /** `scene_id` names a member the catalog does not have: the attribute
        lookup fails before anything is queued. */
    method SceneId() returns (o: Outcome)
      ensures o == Fail(AttributeError("SCENE_ID"))
    {
      o := Fail(AttributeError("SCENE_ID"));
    }

    /** `sum`, `mean` and `nunique`. */
    method Sum(field: Option<string>)
      modifies this
      ensures operations == old(operations) + [GroupByOp(GroupSum, field)] && plot == old(plot)
    {
      Queue(GroupByOp(GroupSum, field));
    }

    method Mean(field: Option<string>)
      modifies this
      ensures operations == old(operations) + [GroupByOp(GroupMean, field)] && plot == old(plot)
    {
      Queue(GroupByOp(GroupMean, field));
    }

    method Nunique(field: Option<string>)
      modifies this
      ensures operations == old(operations) + [GroupByOp(GroupNunique, field)] && plot == old(plot)
    {
      Queue(GroupByOp(GroupNunique, field));
    }

    method Agg(aggs: Aggregations)
      modifies this
      ensures operations == old(operations) + [GroupByMultipleOp(aggs)] && plot == old(plot)
    {
      Queue(GroupByMultipleOp(aggs));
    }

    /** `filter_min`, `filter_max` and `filter_equals`. */
    method FilterMin(f: Field, value: Value)
      modifies this
      ensures operations == old(operations) + [FilterOp(Min, f, value)] && plot == old(plot)
    {
      Queue(FilterOp(Min, f, value));
    }

    method FilterMax(f: Field, value: Value)
      modifies this
      ensures operations == old(operations) + [FilterOp(Max, f, value)] && plot == old(plot)
    {
      Queue(FilterOp(Max, f, value));
    }

    method FilterEquals(f: Field, value: Value)
      modifies this
      ensures operations == old(operations) + [FilterOp(Equal, f, value)] && plot == old(plot)
    {
      Queue(FilterOp(Equal, f, value));
    }

    method Sort(f: Field, ascending: bool)
      modifies this
      ensures operations == old(operations) + [SortOp(f, ascending)] && plot == old(plot)
    {
      Queue(SortOp(f, ascending));
    }

    method ValueCounts()
      modifies this
      ensures operations == old(operations) + [ValueCountsOp] && plot == old(plot)
    {
      Queue(ValueCountsOp);
    }

    method Cumulative(f: Field, result: Option<string>)
      modifies this
      ensures operations == old(operations) + [CumulativeOp(f, result)] && plot == old(plot)
    {
      Queue(CumulativeOp(f, result));
    }

    /** `bar`, `scatter` and `line`. */
    method Bar(x: Option<string>, y: Option<string>)
      modifies this
      ensures operations == old(operations) + [BuildPlotOp(Plot.Bar, x, y)] && plot == old(plot)
    {
      Queue(BuildPlotOp(Plot.Bar, x, y));
    }

    method Scatter(x: Option<string>, y: Option<string>)
      modifies this
      ensures operations == old(operations) + [BuildPlotOp(Plot.Scatter, x, y)] && plot == old(plot)
    {
      Queue(BuildPlotOp(Plot.Scatter, x, y));
    }

    method Line(x: Option<string>, y: Option<string>)
      modifies this
      ensures operations == old(operations) + [BuildPlotOp(Plot.Line, x, y)] && plot == old(plot)
    {
      Queue(BuildPlotOp(Plot.Line, x, y));
    }

    /** `xlog`, `ylog` and `moving_average`. */
    method QueueXLog()
      modifies this
      ensures operations == old(operations) + [XLogOp] && plot == old(plot)
    {
      Queue(XLogOp);
    }

    method QueueYLog()
      modifies this
      ensures operations == old(operations) + [YLogOp] && plot == old(plot)
    {
      Queue(YLogOp);
    }

    method QueueMovingAverage(window: Value, name: Option<string>)
      modifies this
      ensures operations == old(operations) + [MovingAverageOp(window, name)] && plot == old(plot)
    {
      Queue(MovingAverageOp(window, name));
    }

    /** Run one queued transformer call. */
    method RunTransformer(op: Op) returns (o: Outcome)
      requires TransformerOp(op)
      modifies database, database.metadata
      ensures database.metadata == old(database.metadata)
      ensures BStep(State(), o) == Execute(old(State()), op)
    {
      match op
      case AddFieldOp(f) => o := database.AddField(FieldValue(f), None);
      case GroupByOp(g, key) => o := database.GroupBy(g, key);
      case GroupByMultipleOp(aggs) => o := database.GroupByMultiple(aggs);
      case FilterOp(filter, f, value) => o := database.Filter(filter, f, value);
      case SortOp(f, asc) => o := database.Sort(f, asc);
      case ValueCountsOp => o := database.ValueCounts();
      case CumulativeOp(f, result) => o := database.Cumulative(f, result);
    }

    /** Run one queued call against the transformer or the plot state. */
    method Run(op: Op) returns (o: Outcome)
      modifies this, database, database.metadata
      ensures database.metadata == old(database.metadata) && operations == old(operations)
      ensures BStep(State(), o) == Execute(old(State()), op)
    {
      if TransformerOp(op) {
        o := RunTransformer(op);
        return;
      }
      match op
      case BuildPlotOp(kind, x, y) =>
        if plot.figure.Some? {
          o := Fail(ValueError("Plot already created!"));
        } else {
          plot := plot.(figure := Some(Figure(kind, database.df, database.metadata.State(), x, y)));
          o := Pass;
        }
      case XLogOp =>
        plot := plot.(mutations := plot.mutations + [XLog]);
        o := Pass;
      case YLogOp =>
        plot := plot.(mutations := plot.mutations + [YLog]);
        o := Pass;
      case MovingAverageOp(w, name) =>
        plot := plot.(mutations := plot.mutations + [MovingAverage(w, name)]);
        o := Pass;
    }

    /** `build`: every queued call in insertion order; the queue is kept. */
    method Build() returns (o: Outcome)
      modifies this, database, database.metadata
      ensures database.metadata == old(database.metadata) && operations == old(operations)
      ensures BStep(State(), o) == Replay(old(State()), operations)
    {
      var i := 0;
      while i < |operations|
        invariant 0 <= i <= |operations| && operations == old(operations)
        invariant database.metadata == old(database.metadata)
        invariant Replay(old(State()), operations[..i]) == BStep(State(), Pass)
      {
        o := Run(operations[i]);
        assert operations[..i + 1][..i] == operations[..i];
        if o.Fail? {
          ReplayFailStops(old(State()), operations, i + 1);
          return;
        }
        i := i + 1;
      }
      assert operations[..|operations|] == operations;
      return Pass;
    }

    /** `reset`: a fresh transformer state, no figure and an empty queue. */
    method Reset()
      modifies this, database
      ensures State() == BState(Initial(database.original), NoPlot) && operations == []
      ensures fresh(database.metadata)
    {
      database.Reset();
      plot := NoPlot;
      operations := [];
    }

    /** `figure`. */
    method CurrentFigure() returns (r: Result<Figure>)
      ensures r == FigureOf(plot)
    {
      if plot.figure.None? {
        return Err(ValueError("Plot has not been created yet!"));
      }
      return Ok(plot.figure.value);
    }
  }

  lemma ReplayFailStops(s: BState, ops: seq<Op>, n: nat)
    requires n <= |ops| && Replay(s, ops[..n]).outcome.Fail?
    ensures Replay(s, ops) == Replay(s, ops[..n])
    decreases |ops| - n
  {
    if n < |ops| {
      assert ops[..n + 1][..n] == ops[..n];
      ReplayFailStops(s, ops, n + 1);
    } else {
      assert ops[..n] == ops;
    }
  }
}
