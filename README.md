# A verified model of the plot-building engine of ark-rp-visualisation

ark-rp-visualisation turns a table of role-play chat messages into charts.
Each message has an author, a timestamp, text, attachments and reactions. At
its heart is an engine that does three things:

- it transforms the message table: it derives fields, filters, groups and
  aggregates, counts values, adds running totals and sorts;
- it labels the result automatically: axis labels, chart title, aggregation
  prefixes and filter clauses;
- it hands the result to a chart.

The repository contains several generations of that engine. This project
models each generation on its own, in the form its code takes. Imperative
code is modelled as Dafny classes whose methods are proved to produce the
state given by a specification function. Pure code is modelled as functions
and lemmas.

The modules, by generation:

- **backend pipeline**: `BackendEnums` (the field, aggregation and filter
  catalog), `BackendTransformer` (the table transformer), `BackendMetadata`
  (the label side table) and `BackendPlotBuilder` (the lazy operation
  queue). `BackendExamples` works through the test suite's five-message
  table.
- **config-driven builder**: `Enums` (its catalog), `CoreModels` (derived
  columns, parsing of raw selections, label precedence, filter groups) and
  `CorePlotBuilder`. `CorePlotBuilder` covers the builder in
  `src/core/plot_builder.py`, its copy in `src/dashboard/plot_builder.py`
  and the copy in `src/dashboard/graph_engine.py`. Where the dashboard copy
  of the records differs, the difference is a `Generation` argument.
- **earlier variants**:
  - `FrontendPlot` (the eager builder with default aggregations);
  - `PlotEnums`, `PlotDatabaseTransformer`, `PlotMetadata` and
    `PlotTransformer` (the plot package, with its history log and
    compounding prefixes);
  - `RpPlotBuilder` (the step-list interpreter).
- **validators**: `IsValidPlot` (valid line and bar combinations) and
  `Controls` (the dropdown rules).

Shared modules model the parts of Python and pandas the code relies on:

- `Wrappers` holds the `Result` type that carries the exception an operation
  raises.
- `Values` models cells and their comparisons.
- `Dicts` models insertion-ordered dicts.
- `Sorting` holds the stable sort.
- `Tables` models an ordered column list over rows held as maps.
- `Grouping` models `groupby`, `value_counts` and `cumsum`.

Every error condition of the source is part of an operation's result and
never a precondition. This covers:

- unpacking exactly one key;
- needing two columns;
- a plot that is already created;
- a missing field, which raises KeyError;
- a reaction given with the wrong field.

Where pandas would accept something the table model cannot represent, the
result is `Err(Unmodelled(...))`, for example duplicate column names or
index realignment after a sort. Lemmas state which inputs never reach that
case.

Some behaviour of the code is easy to misread. The model follows the code:

- The backend's `add_group_by` puts the aggregation prefixes in front of the catalog's description and label, not in front of what is already stored. Repeating it is therefore idempotent (`BackendMetadata.GroupByIdempotent`). Only the plot package composes prefixes (`PlotMetadata.GroupByComposes`).
- The plot package's NUNIQUE description prefix is "Number of Unique ".
- A second backend `build` replays every queued operation against the transformed state and then fails at the replayed plot step. It is not a no-op.
- `src/frontend/controls.py` imports `DateOperator`, `MatchOperator` and `Operator`, which `src/backend/enums.py` does not define. The dropdown rules are modelled over the backend field catalog.
- `src/dashboard/plot_builder.py:37` and `src/dashboard/graph_engine.py:36` import `PlotType` from `enums`, but `src/enums.py` defines the plot kinds as `Plot` (line 136) and has no `PlotType`. Both dashboard modules therefore fail at import. `CorePlotBuilder` and the `Dashboard` generation model them as if the import resolved to `Plot`.
- `SortConfig.from_raw` reads `Text.ASCENDING`, which does not exist (see "## Findings"). `CoreModels.FigureFromRaw` is built on the corrected `CoreModels.SortFromRaw`; the code as written is `CoreModels.FigureFromRawAsWritten`.

## Model

| member | source | states |
|---|---|---|
| Sorting.SortBySorted | src/backend/database_transformer.py:139-141 | the stable sort behind `sort_values` orders its result by the key, in either direction |
| Sorting.SortByPermutation | src/backend/database_transformer.py:139-141 | that sort is a permutation of its input |
| Tables.SortTable | src/backend/database_transformer.py:139-141 | `sort_values` raises KeyError on a missing column and TypeError on unorderable cells; otherwise keeps the columns and permutes the rows into order |
| Tables.SetColumnSpec | src/backend/database_transformer.py:37-54 | assigning a column stores exactly the given values there and leaves every other column unchanged |
| Tables.InsertColumn | src/backend/database_transformer.py:130-134 | `insert` refuses an existing name and otherwise places the new column at the given position |
| Tables.Project | src/backend/database_transformer.py:64 | selecting columns raises KeyError on the first missing name and otherwise keeps exactly those columns and every row |
| Tables.WhereCompose | src/backend/database_transformer.py:143-147 | two boolean masks applied in turn keep the rows satisfying both |
| Grouping.GroupBySpec | src/backend/database_transformer.py:70-75 | each grouped row holds one key and, in each aggregated column, the aggregation over exactly the rows with that key |
| Grouping.GroupByWellFormed | src/backend/database_transformer.py:70-75 | the grouped table is well formed: its columns are distinct and each row holds exactly those columns |
| Grouping.GroupByCells | src/backend/database_transformer.py:70-75 | each grouped cell is the reduction of its column over the non-empty group of rows with that row's key |
| Grouping.ValueCounts | src/backend/database_transformer.py:106-107 | one row per distinct value with its count, most frequent first; KeyError on a missing column |
| Grouping.ValueCountsByValue | src/rp_plot_builder.py:51 | value counts followed by `sort_index` are the same rows ordered by value, ascending |
| Grouping.CountsCoverRows | src/backend/database_transformer.py:106 | the counts of all distinct values add up to the number of rows |
| Grouping.RunningTotals | src/backend/database_transformer.py:122-124 | `cumsum` holds at position k the total of the first k + 1 cells |
| BackendEnums.AllFieldsComplete | src/backend/enums.py:12-23 | the member list holds every field |
| BackendEnums.FieldOf | src/backend/enums.py:12-23 | looking a member up by value gives the member with that value, and a ValueError when no member has it |
| BackendEnums.FieldOfValue | src/backend/enums.py:12-23 | looking a member up by its own value round-trips to the member |
| BackendEnums.Description | src/backend/enums.py:70-72 | the catalog description, and a KeyError on the member name exactly when the member has no entry |
| BackendEnums.Label | src/backend/enums.py:74-77 | fails exactly when the member has no entry, with a KeyError on its name |
| BackendEnums.Numerical | src/backend/enums.py:79-81 | fails exactly when the member has no entry |
| BackendEnums.Categorical | src/backend/enums.py:83-85 | fails exactly when the member has no entry |
| BackendEnums.Temporal | src/backend/enums.py:87-89 | fails exactly when the member has no entry |
| BackendEnums.LabelFallsBack | src/backend/enums.py:74-77 | a catalogued field's label is its own label when it has one, otherwise its description |
| BackendEnums.Classification | src/backend/enums.py:25-68 | temporal is exactly DATE/HOUR/DAY, categorical exactly those plus AUTHOR/CHANNEL_NAME, numerical exactly REACTION_COUNT/WORD_COUNT/SCENE_END/COUNT; unlisted flags are false |
| BackendEnums.ReactionsUncatalogued | src/backend/enums.py:17-18 | REACTIONS has no entry: description and label raise KeyError("REACTIONS"), and so does every flag |
| BackendEnums.Reduction | src/backend/enums.py:97-104 | each aggregation dispatches to the reduction of the same name |
| BackendEnums.DescriptionPrefix | src/backend/enums.py:106-122 | the description prefix is "" exactly for SUM |
| BackendEnums.LabelPrefix | src/backend/enums.py:124-127 | every aggregation has a non-empty label prefix |
| BackendEnums.Holds | src/backend/enums.py:150-156 | MIN keeps value <= cell and MAX keeps cell <= value, raising TypeError exactly when the two cannot be ordered; EQUAL is Python equality and never fails |
| BackendEnums.BoundsMeetAtEqual | src/backend/enums.py:150-156 | on numbers, passing both MIN and MAX with one bound is the same as passing EQUAL: both bounds are inclusive |
| BackendEnums.SymbolsDistinct | src/backend/enums.py:158-164 | the symbols of MIN, MAX and EQUAL are three distinct single characters |
| BackendExamples.Message | tests/database_transformer_test.py:8-18 | a fixture row has exactly the author, date, word-count and reactions columns |
| BackendExamples.SampleReactions | tests/database_transformer_test.py:10-17 | the fixture's reaction maps, in row order |
| BackendExamples.SampleMostReactions | tests/database_transformer_test.py:36-43 | the largest count of each fixture reaction map is 2, 1, 1, 0, 3 |
| BackendExamples.SampleReactionCountColumn | tests/database_transformer_test.py:36-43 | deriving REACTION_COUNT on the fixture yields 2, 1, 1, 0, 3 |
| BackendExamples.ReactionCountDerivation | src/backend/database_transformer.py:36-54 | without a reaction name, REACTION_COUNT on any table with a reactions column is the largest count of each message's reactions |
| BackendExamples.SampleReactionCounts | tests/database_transformer_test.py:36-43 | after `add_field(REACTION_COUNT)` the fixture's reaction_count column is 2, 1, 1, 0, 3 |
| BackendExamples.SampleRunningTotals | tests/database_transformer_test.py:106-121 | the running totals of the fixture word counts are 5, 15, 30, 50, 75 |
| BackendMetadata.AfterGroupBy | src/backend/metadata.py:12-24 | the field always gets an entry (an empty one first), every other entry and the filter list are kept, and the call fails exactly on the uncatalogued REACTIONS |
| BackendMetadata.Clause | src/backend/metadata.py:30 | a filter clause can be built exactly when the field has a label |
| BackendMetadata.AfterFilter | src/backend/metadata.py:26-30 | a successful call appends exactly one clause after the earlier ones; the store never changes and a failure appends nothing |
| BackendMetadata.AfterCumulative | src/backend/metadata.py:32-40 | only the entry under the result name changes, the filters are kept, and a failure on REACTIONS changes nothing |
| BackendMetadata.FiltersDescription | src/backend/metadata.py:42-46 | "" exactly when there are no filters, and otherwise a text in parentheses |
| BackendMetadata.FieldMetadata | src/backend/metadata.py:48-59 | the stored entry when there is one; otherwise a name that is no field is a ValueError, and a field name succeeds exactly when the field is catalogued |
| BackendMetadata.Item | src/backend/metadata.py:69-74 | a dict item lookup succeeds exactly when the key is present, giving its value |
| BackendMetadata.PlotLabelsSpec | src/backend/metadata.py:61-77 | the title is "<y description> by <x description> <filters>" and the labels map x and y to their labels, y winning when they are the same column |
| BackendMetadata.GeneratePlotLabels | src/backend/metadata.py:61-77 | an unknown x is reported first; labels are generated exactly when both fields have metadata with a description and a label |
| BackendMetadata.UnfilteredTitleTrailingSpace | src/backend/metadata.py:69 | without filters the title ends in the separating space |
| BackendMetadata.GroupByIdempotent | src/backend/metadata.py:12-24 | repeating an aggregation leaves the metadata as one call left it |
| BackendMetadata.GroupByLastWins | src/backend/metadata.py:21-24 | prefixes never compound: a second aggregation gives what the second alone would |
| BackendMetadata.GroupByMetadata | src/backend/metadata.py:21-24 | after an aggregation the field's metadata is the prefix plus the catalog description and the prefix plus the catalog label |
| BackendMetadata.CatalogMetadata | src/backend/metadata.py:57-59 | with nothing stored, a catalogued field's metadata is its catalog description and label |
| BackendMetadata.FailedGroupByLeavesEmptyEntry | src/backend/metadata.py:17-22 | grouping REACTIONS leaves an empty entry behind, and plot labels for that column then fail with KeyError("description") |
| BackendMetadata.CumulativeMetadata | src/backend/metadata.py:37-40 | a cumulative column's metadata is "Cumulative <description>" and "Number of <label>" |
| BackendMetadata.FiltersInCallOrder | src/backend/metadata.py:26-30 | two filters are described as "(<first clause>, <second clause>)", in call order |
| BackendMetadata.DescribeTwo | src/backend/metadata.py:46 | two clauses are joined by ", " inside parentheses |
| BackendMetadata.Metadata.constructor | src/backend/metadata.py:5-10 | a new object has an empty store and no filters |
| BackendMetadata.Metadata.AddGroupBy | src/backend/metadata.py:12-24 | the new state and outcome are those of `AfterGroupBy` on the old state |
| BackendMetadata.AfterGroupByCases | src/backend/metadata.py:12-24 | on the store with the entry created, an uncatalogued field fails leaving that store, and a catalogued one gets both prefixed texts and passes |
| BackendMetadata.Metadata.AddFilter | src/backend/metadata.py:26-30 | the new state and outcome are those of `AfterFilter` on the old state |
| BackendMetadata.Metadata.AddCumulative | src/backend/metadata.py:32-40 | the new state and outcome are those of `AfterCumulative` on the old state |
| BackendPlotBuilder.FromTransformer | src/backend/plot_builder.py:44-45 | a transformer call changes only the transformer state and passes its outcome through |
| BackendPlotBuilder.BuildPlot | src/backend/plot_builder.py:21-31 | fails with "Plot already created!" exactly when a figure exists, changing nothing; otherwise the figure is made from the transformer's current table and metadata and the optional x and y |
| BackendPlotBuilder.Mutate | src/backend/plot_builder.py:166-180 | a figure mutation is recorded after the earlier ones and changes nothing else |
| BackendPlotBuilder.Execute | src/backend/plot_builder.py:44-45 | only a plot step can create a figure, and an existing figure is never replaced |
| BackendPlotBuilder.Replay | src/backend/plot_builder.py:40-46 | an empty queue changes nothing |
| BackendPlotBuilder.ReplayConcat | src/backend/plot_builder.py:44-45 | replaying front + back is replaying front and then, if it passed, back from where it left off: strict insertion order |
| BackendPlotBuilder.FigureStays | src/backend/plot_builder.py:25-30 | once a figure exists, no replay changes it |
| BackendPlotBuilder.ReplayWithFigureFails | src/backend/plot_builder.py:25-26 | a queue holding a plot step fails when replayed on a state that already has a figure |
| BackendPlotBuilder.SecondBuildFails | src/backend/plot_builder.py:40-46 | the queue is not cleared, so after a successful build with a plot step a second build fails |
| BackendPlotBuilder.ReplayCreatesFigure | src/backend/plot_builder.py:21-31 | a replay that passed a plot step leaves a figure |
| BackendPlotBuilder.FigureOf | src/backend/plot_builder.py:191-198 | ValueError "Plot has not been created yet!" exactly when there is no figure, otherwise the figure |
| BackendPlotBuilder.FreshBuilderHasNoFigure | src/backend/plot_builder.py:16-19 | a new builder has no figure |
| BackendPlotBuilder.PlotSeesEarlierCalls | src/backend/plot_builder.py:28-30 | a plot step queued after other calls gets the table and metadata those calls produced |
| BackendPlotBuilder.NoPlotWithoutPlotStep | src/backend/plot_builder.py:44-45 | a queue without a plot step leaves no figure |
| BackendPlotBuilder.ReplayFailStops | src/backend/plot_builder.py:44-45 | the first failing call ends the replay: the rest of the queue does not run |
| BackendPlotBuilder.PlotBuilder.constructor | src/backend/plot_builder.py:16-19 | a fresh transformer on the table, no figure, an empty queue |
| BackendPlotBuilder.PlotBuilder.Queue | src/backend/plot_builder.py:33-38 | appends exactly one operation; nothing runs |
| BackendPlotBuilder.PlotBuilder.AddField | src/backend/plot_builder.py:48-113 | queues one add-field call for the member |
| BackendPlotBuilder.PlotBuilder.SceneId | src/backend/plot_builder.py:109-110 | fails with an AttributeError on SCENE_ID, which the catalog lacks, before anything is queued |
| BackendPlotBuilder.PlotBuilder.Sum | src/backend/plot_builder.py:116-117 | queues `group_by` with SUM and the optional key |
| BackendPlotBuilder.PlotBuilder.Mean | src/backend/plot_builder.py:119-120 | queues `group_by` with MEAN and the optional key |
| BackendPlotBuilder.PlotBuilder.Nunique | src/backend/plot_builder.py:122-123 | queues `group_by` with NUNIQUE and the optional key |
| BackendPlotBuilder.PlotBuilder.Agg | src/backend/plot_builder.py:125-126 | queues `group_by_multiple` with the aggregations |
| BackendPlotBuilder.PlotBuilder.FilterMin | src/backend/plot_builder.py:129-130 | queues a MIN filter |
| BackendPlotBuilder.PlotBuilder.FilterMax | src/backend/plot_builder.py:132-133 | queues a MAX filter |
| BackendPlotBuilder.PlotBuilder.FilterEquals | src/backend/plot_builder.py:135-136 | queues an EQUAL filter |
| BackendPlotBuilder.PlotBuilder.Sort | src/backend/plot_builder.py:66-70 | queues a sort with its direction |
| BackendPlotBuilder.PlotBuilder.ValueCounts | src/backend/plot_builder.py:72-76 | queues `value_counts` |
| BackendPlotBuilder.PlotBuilder.Cumulative | src/backend/plot_builder.py:139-144 | queues `cumulative` with the optional result name |
| BackendPlotBuilder.PlotBuilder.Bar | src/backend/plot_builder.py:147-151 | queues a BAR plot step |
| BackendPlotBuilder.PlotBuilder.Scatter | src/backend/plot_builder.py:153-157 | queues a SCATTER plot step |
| BackendPlotBuilder.PlotBuilder.Line | src/backend/plot_builder.py:159-163 | queues a LINE plot step |
| BackendPlotBuilder.PlotBuilder.QueueXLog | src/backend/plot_builder.py:166-167 | queues the x log mutation |
| BackendPlotBuilder.PlotBuilder.QueueYLog | src/backend/plot_builder.py:169-170 | queues the y log mutation |
| BackendPlotBuilder.PlotBuilder.QueueMovingAverage | src/backend/plot_builder.py:172-180 | queues a moving average with its window and label |
| BackendPlotBuilder.PlotBuilder.Run | src/backend/plot_builder.py:44-45 | one queued call: the new state and outcome are `Execute` on the old state, and the queue is kept |
| BackendPlotBuilder.PlotBuilder.Build | src/backend/plot_builder.py:40-46 | the new state and outcome are `Replay` of the whole queue on the old state, and the queue is kept |
| BackendPlotBuilder.PlotBuilder.Reset | src/backend/plot_builder.py:182-189 | the transformer back on its original table, no figure, an empty queue |
| BackendPlotBuilder.PlotBuilder.CurrentFigure | src/backend/plot_builder.py:191-198 | the result of `FigureOf` on the plot state |
| BackendTransformer.Initial | src/backend/database_transformer.py:24-29 | the original table, a working copy equal to it, no active fields and fresh metadata |
| BackendTransformer.MaxCount | src/backend/database_transformer.py:49-51 | the largest count of a reaction map: at least every count and equal to one of them, 0 for an empty map |
| BackendTransformer.MostReactions | src/backend/database_transformer.py:50 | a reaction cell's largest count; any other cell fails |
| BackendTransformer.Derivation | src/backend/database_transformer.py:36-54 | a reaction with any field but REACTION_COUNT is the ValueError "Invalid field for reaction counts"; a derived column has one value per row; exactly HOUR, DAY, DATE, REACTION_COUNT, COUNT or a given reaction derive a column |
| BackendTransformer.AddFieldStep | src/backend/database_transformer.py:31-57 | a name that is no field fails with its ValueError; any failure leaves the state alone; success appends exactly that field to the active fields; original and metadata never change |
| BackendTransformer.FieldValues | src/backend/database_transformer.py:64 | the column names of the active fields, position by position |
| BackendTransformer.AggSpec | src/backend/database_transformer.py:71-74 | one (column, reduction) pair per aggregation, in dict order |
| BackendTransformer.AggSpecDistinct | src/backend/database_transformer.py:71-74 | distinct aggregated fields give distinct aggregated columns |
| BackendTransformer.Unaggregated | src/backend/database_transformer.py:67 | exactly the columns the aggregation dict does not name |
| BackendTransformer.AfterGroupByAll | src/backend/database_transformer.py:78-79 | recording the aggregations never touches the filter clauses |
| BackendTransformer.GroupByMultipleStep | src/backend/database_transformer.py:59-80 | original and fields are kept; a projection failure changes nothing; a count of unaggregated fields other than one fails the unpacking after the projection has replaced the table; success records every aggregation in the metadata |
| BackendTransformer.Uniform | src/backend/database_transformer.py:97 | the dict `group_by` builds has distinct keys |
| BackendTransformer.GroupByStep | src/backend/database_transformer.py:82-98 | with a key, it is `group_by_multiple` with the aggregation on every active field whose value differs from the key; without one, no fields fails the unpacking, and otherwise the aggregation goes on every field after the first |
| BackendTransformer.OtherFields | src/backend/database_transformer.py:88-92 | exactly the active fields whose value differs from the key |
| BackendTransformer.ValueCountsStep | src/backend/database_transformer.py:100-111 | anything but exactly one active field fails the unpacking and changes nothing; success replaces the table by its value counts and records SUM of COUNT |
| BackendTransformer.IndexOf | src/backend/database_transformer.py:131 | the position of a column that is present |
| BackendTransformer.CumulativeValues | src/backend/database_transformer.py:122-127 | running totals for a numeric column, positions 1..n otherwise, as long as the column |
| BackendTransformer.CumulativeStep | src/backend/database_transformer.py:113-137 | original and fields are kept; a missing source column is a KeyError that changes nothing |
| BackendTransformer.SortStep | src/backend/database_transformer.py:139-141 | sorting keeps the active fields and the metadata |
| BackendTransformer.FilterStep | src/backend/database_transformer.py:143-149 | filtering keeps the original and the active fields |
| BackendTransformer.ResetStep | src/backend/database_transformer.py:165-171 | the state of a new transformer on the original table |
| BackendTransformer.AddFieldRejects | src/backend/database_transformer.py:33-41 | a name that is no field is a ValueError; a reaction with a field other than REACTION_COUNT is the ValueError "Invalid field for reaction counts" and changes nothing |
| BackendTransformer.AddFieldColumn | src/backend/database_transformer.py:36-56 | a derived column is stored under the field's name, every other column is kept, and the field is appended |
| BackendTransformer.AddFieldDerives | src/backend/database_transformer.py:36-54 | per row: the largest reaction count (0 for none), the named reaction's count (0 if absent), the hour or day of `date`, its calendar date, or 1 |
| BackendTransformer.DateOverwritesTimestamps | src/backend/database_transformer.py:46-47 | on a non-empty table, deriving DATE overwrites `date`, so a later HOUR, DAY or DATE fails on the `.dt` accessor and changes nothing |
| BackendTransformer.AfterGroupByAllSpec | src/backend/database_transformer.py:78-79 | the metadata loop passes exactly when no aggregated field is REACTIONS, and then each aggregated field carries its own aggregation's prefixes |
| BackendTransformer.GroupByMultipleTable | src/backend/database_transformer.py:64-75 | success needs exactly one unaggregated active field; the result is keyed by it, one row per distinct value in ascending order, with the aggregated columns in dict order |
| BackendTransformer.GroupByMultipleCells | src/backend/database_transformer.py:70-75 | each output cell is its reduction over exactly the projected rows with that row's key, and that group is non-empty |
| BackendTransformer.GroupByMultipleLabels | src/backend/database_transformer.py:78-79 | after success every aggregated field is labelled with its own aggregation's prefixes |
| BackendTransformer.LabelledMetadata | src/backend/metadata.py:48-55 | a labelled field's metadata is the prefixed catalog text |
| BackendTransformer.GroupByDefaultKey | src/backend/database_transformer.py:93-94 | without a key, the result's first column is the first active field |
| BackendTransformer.GroupByUnknownKey | src/backend/database_transformer.py:87-92 | a key that names no active field leaves every column aggregated, so the step fails to unpack (`UnpackError`) on the projected table; also modelled: `src/backend/database_transformer.py:64-67` |
| BackendTransformer.GroupByGivenKey | src/backend/database_transformer.py:87-92 | a passing keyed step names an active field; the result's first column is the key, and every other active field is a later column, labelled with the aggregation's prefixes; also modelled: `src/backend/database_transformer.py:67-79` |
| BackendTransformer.GroupByGivenKeyCells | src/backend/database_transformer.py:87-92 | in a passing keyed step, every other active field's cell in each row is the aggregation of that field over the non-empty group of rows carrying the row's key; also modelled: `src/backend/database_transformer.py:70-75` |
| BackendTransformer.UniformKeys | src/backend/database_transformer.py:97 | the dict `group_by` builds names exactly the other fields |
| BackendTransformer.ValueCountsSpec | src/backend/database_transformer.py:105-110 | success means one active field; the result has that column and "count", and "count" reads "Messages" / "Number of Messages" |
| BackendTransformer.CumulativeSpec | src/backend/database_transformer.py:119-134 | the new column, named `cumulative_<field>` by default, sits right after its source, holds the cumulative values, and the row count and every other column are unchanged |
| BackendTransformer.CumulativeOutcome | src/backend/database_transformer.py:119-136 | success exactly when the source is a column, the result name is not, and the field is catalogued; an existing result name is pandas' "already exists" ValueError |
| BackendTransformer.FilterSpec | src/backend/database_transformer.py:143-149 | exactly the rows satisfying the predicate are kept, in their original order, and one clause is appended |
| BackendTransformer.FiltersCompose | src/backend/database_transformer.py:147 | two filters in turn keep the rows both predicates accept |
| BackendTransformer.ResetIsFresh | src/backend/database_transformer.py:165-171 | after a reset the state equals a new transformer's on the same table |
| BackendTransformer.AfterGroupByAllFailStops | src/backend/database_transformer.py:78-79 | the first failing aggregation ends the metadata loop |
| BackendTransformer.DatabaseTransformer.constructor | src/backend/database_transformer.py:24-29 | the state is `Initial` of the table, with new metadata |
| BackendTransformer.DatabaseTransformer.AddField | src/backend/database_transformer.py:31-57 | the new state and outcome are `AddFieldStep` of the old state |
| BackendTransformer.DatabaseTransformer.GroupByMultiple | src/backend/database_transformer.py:59-80 | the new state and outcome are `GroupByMultipleStep` of the old state |
| BackendTransformer.DatabaseTransformer.RecordAggregations | src/backend/database_transformer.py:78-79 | the metadata loop: the new metadata and outcome are `AfterGroupByAll` of the old |
| BackendTransformer.DatabaseTransformer.GroupBy | src/backend/database_transformer.py:82-98 | the new state and outcome are `GroupByStep` of the old state |
| BackendTransformer.DatabaseTransformer.ValueCounts | src/backend/database_transformer.py:100-111 | the new state and outcome are `ValueCountsStep` of the old state |
| BackendTransformer.DatabaseTransformer.Cumulative | src/backend/database_transformer.py:113-137 | the new state and outcome are `CumulativeStep` of the old state |
| BackendTransformer.CumulativeOk | src/backend/database_transformer.py:113-137 | once the column is read and the running totals inserted after it, the table is replaced and the metadata records the cumulative field |
| BackendTransformer.DatabaseTransformer.Sort | src/backend/database_transformer.py:139-141 | the new state and outcome are `SortStep` of the old state |
| BackendTransformer.DatabaseTransformer.Filter | src/backend/database_transformer.py:143-149 | the new state and outcome are `FilterStep` of the old state |
| BackendTransformer.DatabaseTransformer.Reset | src/backend/database_transformer.py:165-171 | the new state is `ResetStep` of the old state, with new metadata |
| Enums.AllFieldsComplete | src/enums.py:14-27 | iterating the field enum visits every member |
| Enums.FieldOf | src/enums.py:14-27 | `Field(s)` finds the member whose value is `s`, and is a ValueError when no member has that value |
| Enums.FieldOfValue | src/enums.py:14-27 | looking a member up by its own value gives that member back |
| Enums.TitleLabel | src/enums.py:76-79 | without its own title label a field's title label is its axis label |
| Enums.Label | src/enums.py:81-84 | without its own label a field's label is its axis label |
| Enums.LabelsFallBack | src/enums.py:31-84 | every title label is the axis label; only REACTION_COUNT and WORD_COUNT have a label of their own, "Reaction Count" and "Word Count" |
| Enums.InternalFieldsUnlabelled | src/enums.py:25-27 | exactly DATETIME and REACTIONS have no axis label, and they carry no classification flag |
| Enums.Classification | src/enums.py:31-96 | the temporal fields are DATE, HOUR and DAY; the categorical ones are those and AUTHOR and CHANNEL_NAME; the numerical ones are REACTION_COUNT, WORD_COUNT, SCENE_END and COUNT |
| Enums.GroupByOf | src/enums.py:99-102 | `GroupBy(s)` finds the aggregation whose value is `s`, or is a ValueError |
| Enums.Reduction | src/enums.py:104-111 | each aggregation reduces a group by the pandas reduction of its own name |
| Enums.LookupOr | src/enums.py:129 | `dict.get(key, "")`: the value stored for the key, or the fallback when there is none |
| Enums.PrefixTable | src/enums.py:113-133 | SUM puts "Number of " on axes and nothing on titles; MEAN puts "Avg. " and "Average "; NUNIQUE puts "Unique " on both |
| Enums.OperatorOf | src/enums.py:151-166 | `Operator(s)` finds the operator whose value is `s`, or is a ValueError |
| Enums.Holds | src/enums.py:168-183 | per cell: `<`, `<=`, `>`, `>=` are defined exactly on comparable values, and then mean the order; `==` never fails; IN and NOT_IN need a list and test membership; any failure is a TypeError |
| Enums.OperatorAliases | src/enums.py:169-182 | BEFORE, AFTER and DURING are exactly `<`, `>` and `=`; NOT_IN is defined exactly where IN is, and is its negation |
| Enums.Trichotomy | src/enums.py:168-178 | on numbers every comparison is defined, `<=` is `<` or `=`, `>=` is `>` or `=`, and `<` and `>` never hold together |
| Enums.Mask | src/enums.py:168-183 | the series mask has one answer per cell and fails exactly when some cell's comparison fails |
| Enums.FilterOf | src/enums.py:275-280 | `Filter(s)` accepts exactly the values of DATE, AUTHOR, CHANNEL_NAME, HOUR and REACTION_COUNT, and is a ValueError otherwise |
| Enums.DefaultOperator | src/enums.py:298-348 | each filter's default operator is one of the operators it offers |
| Enums.OperatorLists | src/enums.py:284-348 | IN is offered only by AUTHOR and CHANNEL_NAME, BEFORE only by DATE, and `<` only by HOUR and REACTION_COUNT |
| Enums.ToDate | src/enums.py:307 | `pd.to_datetime(value).date()`: a date stays, a timestamp gives its date, and `YYYY-MM-DD` text parses exactly when it names a real calendar date |
| Enums.PostProcess | src/enums.py:307 | DATE values are parsed to dates, HOUR values go through `int`, the other filters keep the value; also modelled: `src/enums.py:334`, `src/enums.py:370-373` |
| Enums.NatTextWidth | src/enums.py:329 | decimal text of a number below 10^w has at most w digits |
| Enums.PaddedTwo | src/enums.py:307 | a two-digit date field reads back as the number written |
| Enums.HourRoundTrip | src/enums.py:329-334 | an hour offered as `str(hour)` post-processes back to that integer |
| Enums.DateRoundTrip | src/enums.py:307 | a valid date written as `YYYY-MM-DD` parses back to itself |
| Enums.Keep | src/enums.py:194-203 | a list comprehension with a condition: exactly the members that satisfy it, no more of them than the input |
| Enums.FieldLists | src/enums.py:194-203 | the labelled fields are all but DATETIME and REACTIONS; the groupable ones also leave out COUNT and SCENE_END; the non-temporal ones leave out DATE, HOUR and DAY |
| Enums.TabRules | src/enums.py:205-247 | the line tab offers only non-temporal primary fields and DATE, preset, as the secondary; only the three-variable scatter has a tertiary dropdown; every preset is allowed; each tab's plot type |
| CoreModels.DerivedCells | src/core/models.py:13-20 | COUNT is a column of 1s; HOUR, DAY and DATE need the timestamp column and are a KeyError without it; one cell per row |
| CoreModels.AddDerivedField | src/core/models.py:10-21 | a field the table already has, or one that cannot be derived, leaves the table as it was |
| CoreModels.AddDerivedFieldSpec | src/core/models.py:12-20 | a derivation appends just the new column and keeps every other one; each cell is 1, or the timestamp's hour, day of month or calendar date; also modelled: `src/dashboard/plot_builder.py:43-54` |
| CoreModels.AddDerivedFieldIdempotent | src/core/models.py:12 | deriving the same field twice changes nothing the second time |
| CoreModels.PrepareCovers | src/core/models.py:77-81 | preparing keeps the existing columns in front and leaves every derivable field it was given present |
| CoreModels.PrepareLast | src/core/models.py:77-81 | a preparation that succeeds succeeded before its last field, which was then derived on the table reached so far |
| CoreModels.AddDerivedKeeps | src/core/models.py:12-20 | one derivation keeps the existing columns in front and leaves a derivable field present |
| CoreModels.PrepareNoop | src/core/models.py:77-81 | a table that already holds every derivable field is left unchanged |
| CoreModels.PrepareIdempotent | src/core/models.py:77-81 | preparing twice gives what preparing once gave |
| CoreModels.Prepare | src/core/models.py:77-81 | the loop that reassigns `df` computes exactly the fold of `_add_derived_field` over the fields, stopping at the first error, and leaves behind the partly prepared table; also modelled: `src/dashboard/plot_builder.py:86-90` |
| CoreModels.PrepareFailStops | src/core/models.py:79-80 | once one field fails, preparing the whole list fails with that error |
| CoreModels.PrepareAll | src/core/models.py:77-81 | preparing keeps the number of rows, and fields other than HOUR, DAY and DATE never make it fail |
| CoreModels.PrepareReached | src/core/models.py:10-21 | the frame `prepare_dataframe` leaves behind is the prepared table whenever preparing succeeds; `_add_derived_field` writes into the frame it is given |
| CoreModels.PrepareReachedFails | src/core/models.py:77-81 | a failing preparation leaves the table prepared by the fields in front of the failing one, and fails with that field's error |
| CoreModels.PrepareReachedStops | src/core/models.py:79-80 | once one field fails, the later fields leave the frame alone |
| CoreModels.CountStaysWhenHourFails | src/core/models.py:12-19 | axis fields COUNT then HOUR on a table without timestamps fail with KeyError("datetime") and leave the new "count" column in place |
| CoreModels.DerivedCellAt | src/core/models.py:13-18 | the k-th HOUR, DAY or DATE cell is the hour, day or calendar date of the k-th timestamp, which must be one |
| CoreModels.ParseFields | src/core/models.py:38 | each name becomes the field with that value, in order; any unknown name is a ValueError |
| CoreModels.ZipAggregations | src/core/models.py:40-42 | fields and aggregations are paired by position, cut to the shorter list; an unknown aggregation among those is a ValueError |
| CoreModels.AxisFromRaw | src/core/models.py:31-51 | fields are parsed first; fewer than two fails the unpacking; [Y, X] puts the first field on y and [X, Y] on x; the aggregation dict is built from the zip; every failure is a ValueError; also modelled: `src/dashboard/plot_builder.py:64-84` |
| CoreModels.InvalidAxes | src/core/models.py:45-50 | well-formed fields and aggregations with any other axis order are the ValueError "Invalid axes" |
| CoreModels.ZipKeys | src/core/models.py:40-42 | the zipped pairs name exactly the fields among the first n |
| CoreModels.ZipGet | src/core/models.py:40-42 | with distinct fields, the k-th field is paired with the k-th aggregation |
| CoreModels.AggregationsPositional | src/core/models.py:40-42 | in the parsed configuration a field is aggregated exactly when it is among the first n, and with distinct fields the k-th field gets the k-th aggregation |
| CoreModels.SortFromRawAsWritten | src/core/models.py:136-141 | as written, reading `Text.ASCENDING` always raises AttributeError, since the text enum has no such member; also modelled: `src/dashboard/plot_builder.py:145-150` |
| CoreModels.SortFromRaw | src/core/models.py:136-141 | the intended reading: ascending exactly when the order is the ascending text, with the axis kept |
| CoreModels.SortAsWrittenAlwaysFails | src/core/models.py:139 | no order and axis build a sort configuration through the code as written; also modelled: `src/enums.py:376-384` |
| CoreModels.EnabledWindows | src/core/models.py:172-174 | exactly the windows whose checkbox is set, never more than the dict holds |
| CoreModels.IntWindows | src/core/models.py:173 | `int` of every enabled window, in order; it fails exactly when some window is not an integer |
| CoreModels.FigureFromRaw | src/core/models.py:154-178 | the corrected program, built on `SortFromRaw` (see "## Findings"): title, labels and log flags are kept; the core copy converts windows with `int`, the dashboard copy keeps them; a sort exists exactly when order and axis are both given; also modelled: `src/dashboard/plot_builder.py:163-187` |
| CoreModels.FigureFromRawAsWritten | src/core/models.py:175-177 | as written, a truthy order and axis always make `from_raw` raise |
| CoreModels.FigureAsWrittenFails | src/core/models.py:175-177 | with both order and axis given the code as written raises AttributeError once the windows convert; without them it agrees with the corrected copy |
| CoreModels.EnabledWindowsOrder | src/core/models.py:172-174 | enabled windows keep their dict order |
| CoreModels.GetLabel | src/core/models.py:53-75 | the core copy never fails; also modelled: `src/dashboard/plot_builder.py:232-249` |
| CoreModels.GetLabelPrecedence | src/core/models.py:60-75 | a custom x label wins for the x field, then a custom y label for the y field, then the base label, behind the aggregation's prefix when aggregated; the result is None only for an unaggregated internal field |
| CoreModels.LabelCopiesAgree | src/core/models.py:73 | the copies agree except on an aggregated unlabelled field, where the f-string writes "None" and `prefix + label` is a TypeError; also modelled: `src/dashboard/plot_builder.py:248` |
| CoreModels.ApplyGroup | src/core/models.py:90-91 | a missing column is a KeyError; it succeeds exactly when the mask is defined, and then keeps the columns and exactly the rows the operator accepts |
| CoreModels.PassesAllSnoc | src/core/models.py:126-127 | passing every group is passing all but the last and then the last |
| CoreModels.ApplyAllRows | src/core/models.py:124-128 | applying the groups in turn keeps the columns and exactly the rows that pass every group, in their original order |
| CoreModels.WhereAll | src/core/models.py:124-128 | with no groups every row is kept |
| CoreModels.ApplyFilters | src/core/models.py:124-128 | the loop that reassigns `df` computes exactly the fold of the groups, stopping at the first error; also modelled: `src/dashboard/plot_builder.py:133-137` |
| CoreModels.ApplyFailStops | src/core/models.py:126-127 | once one group fails, applying the whole list fails with that error |
| CoreModels.ApplyAll | src/core/models.py:124-128 | filtering keeps the columns |
| CoreModels.FilterFields | src/core/models.py:120-121 | the fields `prepare_dataframe` derives, one per group, in order |
| CoreModels.Triples | src/core/models.py:111-113 | `zip` of the three lists: position by position, as long as the shortest |
| CoreModels.NonEmpty | src/core/models.py:114 | exactly the triples whose value is truthy |
| CoreModels.ParseGroup | src/core/models.py:106-110 | the field is parsed, then the operator, then the filter type, then the value is post-processed; a field that is no filter type is that ValueError |
| CoreModels.FilterFieldOfValue | src/enums.py:275-280 | a filter type names the field of the same value |
| CoreModels.ParseGroups | src/core/models.py:105-115 | one group per triple, in order; fails exactly when some triple fails |
| CoreModels.FilterFromRawSpec | src/core/models.py:98-116 | one filter per truthy-valued triple, in order: the named field and operator, one of the five filterable fields, an integer for HOUR and a date for DATE |
| CoreModels.FilterFromRaw | src/core/models.py:98-116 | never more filters than the shortest of the three lists; all-falsy values give no filters and no error |
| CoreModels.EmptyValuesIgnored | src/core/models.py:114 | when every value is falsy no filter is built and nothing fails |
| CorePlotBuilder.PlotFigure | src/core/plot_builder.py:75-84 | the chart needs x and y (and a text field, if any) to be columns; then it has the kind, title, labels and log flags asked for, axis titles from the labels, and one trace over the x and y columns |
| CorePlotBuilder.FieldNames | src/core/plot_builder.py:39-40 | the column names of the fields, position by position |
| CorePlotBuilder.AggSpec | src/core/plot_builder.py:41 | the aggregation dict as (column, reduction) pairs, one per entry and in order, with distinct columns |
| CorePlotBuilder.GroupTable | src/core/plot_builder.py:37-41 | no fields fails the unpacking; success needs aggregations, all of them over fields before the last, and is the group-by keyed on the last field; also modelled: `src/dashboard/plot_builder.py:206-210` |
| CorePlotBuilder.AggregatedInRest | src/core/plot_builder.py:37-41 | when every aggregated column is among the selected names, every aggregated field is among the selected fields |
| CorePlotBuilder.GroupTableSpec | src/core/plot_builder.py:39-41 | the grouped table has the key column then one column per aggregation, one row per distinct key in ascending order, each cell the reduction over the non-empty group with that key |
| CorePlotBuilder.SortStep | src/core/plot_builder.py:43-61 | a sort configuration sorts by x for "X-Axis" and by y otherwise, in its direction; without one, a temporal last field leaves the table and any other sorts ascending by the first field; no fields fails the unpacking; also modelled: `src/dashboard/plot_builder.py:212-230` |
| CorePlotBuilder.SortStepSorted | src/core/plot_builder.py:52-61 | a sort that succeeds keeps the columns, only permutes the rows, and orders them by the chosen column and direction |
| CorePlotBuilder.Title | src/core/plot_builder.py:65-69 | a given title is used as is; otherwise "<first> by <second>" from the two title labels, which never fails in the core copy; also modelled: `src/dashboard/plot_builder.py:254-257` |
| CorePlotBuilder.LabelPairs | src/core/plot_builder.py:70-73 | one (field, axis label) pair per configured field, in order; it fails exactly when some label fails |
| CorePlotBuilder.MakeFigureStep | src/core/plot_builder.py:63-84 | fewer than two fields fails the unpacking; the chart carries the title, the kind, the log flags and one trace over the x and y columns, with the axis titles read from the labels; also modelled: `src/dashboard/plot_builder.py:251-271` |
| CorePlotBuilder.FigureLabels | src/core/plot_builder.py:70-73 | each configured field is labelled by its own axis label, so an axis on a configured field is titled with it |
| CorePlotBuilder.FromPairsLast | src/core/plot_builder.py:70-73 | a dict built from pairs that agree on a key's value maps the key to that value |
| CorePlotBuilder.TitleRule | src/core/plot_builder.py:65-69 | the title is the custom one when given, else the core copy's "<first> by <second>" from the title labels |
| CorePlotBuilder.RollingDefined | src/core/plot_builder.py:100 | a rolling position has a value exactly when its window holds at least 3 values |
| CorePlotBuilder.RollingMean | src/core/plot_builder.py:100 | the window must be an integer, non-negative and at least the minimum period 3, with pandas' messages otherwise |
| CorePlotBuilder.RollingDefinedFromThird | src/core/plot_builder.py:100 | with a valid window the first two positions are empty and every later one has a value |
| CorePlotBuilder.DefaultNames | src/core/plot_builder.py:102-104 | 7 and 30 are named "Weekly Moving Avg" and "Monthly Moving Avg", any other window "<w>-Day Moving Avg" |
| CorePlotBuilder.DefaultNamesDistinct | src/core/plot_builder.py:102-104 | distinct unnamed windows get distinct legend names |
| CorePlotBuilder.AddMovingAverage | src/core/plot_builder.py:86-119 | no figure is the ValueError "Figure not created yet"; no trace is an IndexError; otherwise it succeeds exactly with a valid window, appending the dotted average trace and renaming the first trace "Daily"; also modelled: `src/dashboard/plot_builder.py:273-306` |
| CorePlotBuilder.AddMovingAverageShape | src/core/plot_builder.py:107-118 | one call adds one trace at the end, keeps the layout and the other traces, and renames the first "Daily" |
| CorePlotBuilder.Positioned | src/core/plot_builder.py:147-148 | scatter traces get their text on top, in size 10; other traces are kept; as many traces as before |
| CorePlotBuilder.Layout | src/core/plot_builder.py:128-148 | HOUR or DAY on x of a scatter gets one tick per unit; each axis title gets the log suffix rule; everything else is kept |
| CorePlotBuilder.LogSuffixRule | src/core/plot_builder.py:138-143 | " (log scale)" is appended to the rendered title exactly when the axis is logarithmic and has no custom label |
| CorePlotBuilder.AddAllShape | src/core/plot_builder.py:151-152 | the loop adds one trace per window, keeps the layout, the traces after the first and the first trace's x and y values |
| CorePlotBuilder.AddAllOrder | src/core/plot_builder.py:151-152 | the averages come in configuration order: trace n+k is the average over the k-th window under its default name |
| CorePlotBuilder.AddAllStops | src/core/plot_builder.py:151-152 | once one window fails, the whole loop fails the same way |
| CorePlotBuilder.AddAll | src/core/plot_builder.py:151-152 | the loop changes only the traces, also when a window fails; on a figure without traces the first window is an IndexError |
| CorePlotBuilder.FormatStep | src/core/plot_builder.py:121-152 | no figure is the ValueError "Figure does not exist"; otherwise the layout update and then the moving-average loop; also modelled: `src/dashboard/plot_builder.py:308-339` |
| CorePlotBuilder.BuildStages | src/core/plot_builder.py:154-166 | a successful build passed the axis preparation, the filter preparation, the filters, the grouping and the sort, in that order |
| CorePlotBuilder.BuildFigure | src/core/plot_builder.py:154-168 | a failing table stage is the build's error; a built figure has the requested kind and log flags and needed at least two fields |
| CorePlotBuilder.BuildFiltersBeforeGrouping | src/core/plot_builder.py:156-163 | grouping sees exactly the rows that pass every filter, after the derived columns were added |
| CorePlotBuilder.BuildDerivesColumns | src/core/plot_builder.py:156-157 | every derivable field the axes or the filters name is a column before filtering |
| CorePlotBuilder.PlotBuilder.constructor | src/core/plot_builder.py:22-35 | the configuration is stored, the table is the loaded one and there is no figure; also modelled: `src/dashboard/graph_engine.py:43-56` |
| CorePlotBuilder.PlotBuilder.PrepareAxes | src/core/plot_builder.py:156 | the table becomes the prepared one; on failure it keeps the columns derived before the failing field, since the derivations write into the builder's own frame; the figure is kept; also modelled: `src/core/models.py:77-81` |
| CorePlotBuilder.PlotBuilder.PrepareFilters | src/core/plot_builder.py:157 | the table becomes the prepared one; on failure it keeps the columns derived before the failing field; the figure is kept; also modelled: `src/core/models.py:118-122` |
| CorePlotBuilder.PlotBuilder.Filter | src/core/models.py:124-128 | the table becomes the filtered one, or stays on failure; the figure is kept |
| CorePlotBuilder.PlotBuilder.Groupby | src/core/plot_builder.py:37-41 | the table becomes `GroupTable` of the old one, or stays on failure; also modelled: `src/dashboard/graph_engine.py:58-62` |
| CorePlotBuilder.PlotBuilder.ApplySort | src/core/plot_builder.py:43-61 | the table becomes `SortStep` of the old one, or stays on failure; also modelled: `src/dashboard/graph_engine.py:64-82` |
| CorePlotBuilder.PlotBuilder.MakeFigure | src/core/plot_builder.py:63-84 | the figure becomes `MakeFigureStep` of the table, or stays on failure; the table is kept; also modelled: `src/dashboard/graph_engine.py:84-105` |
| CorePlotBuilder.PlotBuilder.AddMovingAverageLine | src/core/plot_builder.py:86-119 | the figure becomes `AddMovingAverage` of the old one, or stays on failure; also modelled: `src/dashboard/graph_engine.py:107-140` |
| CorePlotBuilder.PlotBuilder.FormatFigure | src/core/plot_builder.py:121-152 | the figure and outcome are `FormatStep` of the old figure; a failing window leaves the averages added so far; also modelled: `src/dashboard/graph_engine.py:142-173` |
| CorePlotBuilder.AddAllNext | src/core/plot_builder.py:151-152 | the windows up to one more are the windows so far and then that window's moving average |
| CorePlotBuilder.PlotBuilder.Build | src/core/plot_builder.py:154-168 | the result is `BuildFigure` of the loaded table; on success the builder holds the built table and the returned figure; also modelled: `src/dashboard/plot_builder.py:341-355`, `src/dashboard/graph_engine.py:175-189` |
| FrontendPlot.AddFieldStep | src/frontend/plot.py:12-37 | an unknown name fails with its ValueError; any failure changes nothing; success writes the derived column, if the field has one, and appends the field even when it is already active |
| FrontendPlot.AddFieldDerives | src/frontend/plot.py:17-34 | per row: the named reaction's count or 0, the largest count or 0, the hour, day or calendar date of the "date" timestamp, or 1; every other column is kept |
| FrontendPlot.AddFieldsPushes | src/frontend/plot.py:84-85 | adding names one by one pushes exactly those fields, in order, after the existing ones |
| FrontendPlot.AddFieldsStops | src/frontend/plot.py:84-85 | once one name fails, adding the whole list fails the same way |
| FrontendPlot.AddFields | src/frontend/plot.py:84-85 | adding fields never changes the number of rows, also when one fails |
| FrontendPlot.DefaultAggregation | src/frontend/plot.py:64 | NUNIQUE exactly for a categorical field, SUM for any other; a field without a catalog entry fails |
| FrontendPlot.DefaultAggregations | src/frontend/plot.py:61-67 | one (field, default aggregation) entry per field of `rest`, in order |
| FrontendPlot.DefaultSpec | src/frontend/plot.py:58-67 | the default aggregation dict names exactly the fields before the last, once each and in order |
| FrontendPlot.GroupExplicit | src/frontend/plot.py:46-55 | a count of projected columns outside the dict other than one fails the unpacking |
| FrontendPlot.ExplicitGroupingKey | src/frontend/plot.py:48-49 | with explicit aggregations the key is the one projected column the dict does not name |
| FrontendPlot.GroupDefault | src/frontend/plot.py:56-70 | no fields fails the unpacking, one field leaves nothing to aggregate; success is the group-by keyed on the last field with the default aggregations |
| FrontendPlot.DefaultGroupingKeysOnLast | src/frontend/plot.py:58-70 | default grouping gives the key column, then every other field, in order |
| FrontendPlot.Grouped | src/frontend/plot.py:46-70 | a non-empty dict takes the explicit branch and an empty one the default branch |
| FrontendPlot.DistinctNames | src/frontend/plot.py:44 | distinct column names mean distinct fields |
| FrontendPlot.GroupByMultipleStep | src/frontend/plot.py:39-71 | the fields are kept; a failed projection changes nothing; the projection sticks even when grouping then fails; success holds the grouped table |
| FrontendPlot.SortStep | src/frontend/plot.py:73-75 | the table becomes the sorted one, or stays with the error; the fields are kept |
| FrontendPlot.MakeChart | src/frontend/plot.py:93 | the chart needs both axes to be columns, and then is over that table and axes |
| FrontendPlot.DefaultSort | src/frontend/plot.py:89-92 | fewer than two names fails the unpacking; a temporal last field leaves the table, any other sorts it ascending by the first field |
| FrontendPlot.AddFieldsParsed | src/frontend/plot.py:84-85 | every added name was a valid field name |
| FrontendPlot.PlotOrdering | src/frontend/plot.py:77-93 | a chart from `plot` has the requested kind and axes, is keyed by the last field, and, unless that field is temporal, is sorted ascending by the first |
| FrontendPlot.PlotStep | src/frontend/plot.py:77-93 | a chart is made only when every name was a valid field, and it has the requested kind and axes |
| FrontendPlot.PlotBuilder.constructor | src/frontend/plot.py:8-10 | a copy of the table and no active fields |
| FrontendPlot.PlotBuilder.AddField | src/frontend/plot.py:12-37 | the new state and outcome are `AddFieldStep` of the old state |
| FrontendPlot.PlotBuilder.GroupByMultiple | src/frontend/plot.py:39-71 | the new state and outcome are `GroupByMultipleStep` of the old state |
| FrontendPlot.PlotBuilder.Sort | src/frontend/plot.py:73-75 | the new state and outcome are `SortStep` of the old state |
| FrontendPlot.PlotBuilder.AddEach | src/frontend/plot.py:84-85 | the loop computes the fold of `AddFieldStep` over the names, stopping at the first failure |
| FrontendPlot.PlotBuilder.Plot | src/frontend/plot.py:77-93 | the new state and result are `PlotStep` of the old state |
| PlotEnums.FieldValueInjective | src/plot/database_transformer.py:20-31 | distinct fields write and log distinct column names |
| PlotEnums.Reduction | src/plot/database_transformer.py:41 | each aggregation is called on the grouped table as the pandas reduction of its own name |
| PlotDatabaseTransformer.LogEntry | src/plot/database_transformer.py:14-18 | a log entry is a dict: its keys are distinct, with a detail named "operation" overriding the operation |
| PlotDatabaseTransformer.AddFieldEntry | src/plot/database_transformer.py:31 | the entry is exactly {"operation": "add_field", "field": name} |
| PlotDatabaseTransformer.GroupByEntry | src/plot/database_transformer.py:43-49 | the entry is {"operation": <aggregation value>, "field": key}: the detail overwrites "group_by" and keeps its first position |
| PlotDatabaseTransformer.ValueCountsEntry | src/plot/database_transformer.py:61 | the entry is exactly {"operation": "value_counts", "field": name} |
| PlotDatabaseTransformer.SortEntry | src/plot/database_transformer.py:67-68 | the entry is {"operation": "sort", "field": name, "order": "ascending" or "descending"} |
| PlotDatabaseTransformer.SourceColumn | src/plot/database_transformer.py:21-28 | HOUR, DAY and DATE need the "date" timestamps and give their hour, day or calendar date; any other field is the source column of its name, or a KeyError |
| PlotDatabaseTransformer.Assign | src/plot/database_transformer.py:29 | the empty table takes the column whole; an unsorted table takes it position by position; only index realignment is left unmodelled |
| PlotDatabaseTransformer.AddFieldStep | src/plot/database_transformer.py:20-32 | a failure changes nothing; success writes the column into the current table and logs one "add_field" entry; the source is never changed |
| PlotDatabaseTransformer.SameReduction | src/plot/database_transformer.py:39-41 | every remaining column, each with the one reduction, in order |
| PlotDatabaseTransformer.GroupByStep | src/plot/database_transformer.py:34-50 | an empty table fails the unpacking and changes nothing; success groups by the first column with every other one reduced and logs one grouping entry |
| PlotDatabaseTransformer.ValueCountsStep | src/plot/database_transformer.py:52-62 | anything but one column fails the unpacking and changes nothing; success holds the counts of that column and logs one "value_counts" entry |
| PlotDatabaseTransformer.SortStep | src/plot/database_transformer.py:64-69 | a failure changes nothing; success holds the sorted table and logs one "sort" entry |
| PlotDatabaseTransformer.ResetStep | src/plot/database_transformer.py:83-88 | an empty table and an empty history |
| PlotDatabaseTransformer.ApplyLogs | src/plot/database_transformer.py:14-18 | every successful call appends exactly one entry naming what it logged |
| PlotDatabaseTransformer.ApplyFailureKeepsState | src/plot/database_transformer.py:20-69 | a call that raises leaves the table and the history as they were |
| PlotDatabaseTransformer.Apply | src/plot/database_transformer.py:20-69 | a failing call changes nothing; a successful one keeps the history and appends one entry |
| PlotDatabaseTransformer.Run | src/plot/database_transformer.py:14-69 | a chain of calls keeps the old history in front and adds at most one entry per call, exactly one per call when every call succeeds |
| PlotDatabaseTransformer.LogsAfterSnoc | src/plot/database_transformer.py:18 | appending an entry that logs a call extends the log of the calls so far |
| PlotDatabaseTransformer.RunLast | src/plot/database_transformer.py:14-18 | a chain that succeeds succeeded before its last call, which then ran on the state reached so far |
| PlotDatabaseTransformer.RunLogs | src/plot/database_transformer.py:14-18 | after a chain of successful calls the history is the old one plus one entry per call, in call order |
| PlotDatabaseTransformer.ApplyKeepsValid | src/plot/database_transformer.py:29 | no call leaves the working table with a repeated column name; also modelled: `src/plot/database_transformer.py:41` |
| PlotDatabaseTransformer.GroupByDistinct | src/plot/database_transformer.py:39-41 | on a table without repeated names, grouping succeeds exactly when the pandas group-by does |
| PlotDatabaseTransformer.AddFieldFromSource | src/plot/database_transformer.py:21-29 | row by row, the added column is the hour, day or date of the source timestamp, or the source column |
| PlotDatabaseTransformer.AddFieldKeepsOthers | src/plot/database_transformer.py:29 | adding a column keeps every other column as it was |
| PlotDatabaseTransformer.GroupByOnOldest | src/plot/database_transformer.py:39-48 | grouping keys on the oldest column, keeps the column order, and logs the aggregation, not "group_by", as the operation |
| PlotDatabaseTransformer.SortLogsOrder | src/plot/database_transformer.py:64-68 | the sorted table is ordered by the field in the direction asked, and the entry records that direction |
| PlotDatabaseTransformer.DatabaseTransformer.constructor | src/plot/database_transformer.py:7-12 | the source is the given table, the working table is empty and so is the history |
| PlotDatabaseTransformer.DatabaseTransformer.AddField | src/plot/database_transformer.py:20-32 | the new state and outcome are `AddFieldStep` of the old state |
| PlotDatabaseTransformer.DatabaseTransformer.GroupBy | src/plot/database_transformer.py:34-50 | the new state and outcome are `GroupByStep` of the old state |
| PlotDatabaseTransformer.DatabaseTransformer.ValueCounts | src/plot/database_transformer.py:52-62 | the new state and outcome are `ValueCountsStep` of the old state |
| PlotDatabaseTransformer.DatabaseTransformer.Sort | src/plot/database_transformer.py:64-69 | the new state and outcome are `SortStep` of the old state |
| PlotDatabaseTransformer.DatabaseTransformer.Reset | src/plot/database_transformer.py:83-88 | the new state is `ResetStep` of the old state |
| PlotMetadata.CatalogEntry | src/plot/metadata.py:9-38 | every field's initial entry has a description |
| PlotMetadata.Catalog | src/plot/metadata.py:9-38 | the initial store holds every field under its value, with its catalog entry |
| PlotMetadata.AggregationDescription | src/plot/metadata.py:61-64 | the description prefix, "" exactly when the aggregation has none |
| PlotMetadata.AggregationLabel | src/plot/metadata.py:66-67 | the label prefix, "" exactly when the aggregation has none |
| PlotMetadata.PrefixTable | src/plot/metadata.py:40-50 | SUM has no description prefix and "Number of " as label prefix; MEAN "Average " and "Avg. "; NUNIQUE "Number of Unique " and "Unique "; every label prefix is non-empty |
| PlotMetadata.Description | src/plot/metadata.py:52-53 | the stored description, or the field's own text |
| PlotMetadata.Label | src/plot/metadata.py:55-59 | the stored label, or the description |
| PlotMetadata.Fallbacks | src/plot/metadata.py:52-59 | a field without an entry is described and labelled by its own text; without a stored label it is labelled by its description |
| PlotMetadata.AfterGroupBy | src/plot/metadata.py:69-75 | the store gains the field and no other entry changes |
| PlotMetadata.AfterGroupBySpec | src/plot/metadata.py:69-75 | the field's description and label become the prefixes in front of what the store said before; other fields read as before |
| PlotMetadata.GroupByComposes | src/plot/metadata.py:69-75 | a second grouping puts its prefix in front of the first one's |
| PlotMetadata.GroupByNotIdempotent | src/plot/metadata.py:69-75 | repeating the same grouping changes the store again, since every label prefix is doubled |
| PlotMetadata.PlotLabelsFor | src/plot/metadata.py:77-98 | the title is "<y description> by <x description>"; the labels map x and y to their labels, one entry when x is y |
| PlotMetadata.CatalogLabels | src/plot/metadata.py:9-38 | with the initial store, title and y label come from the catalog entries; also modelled: `src/plot/metadata.py:85-90` |
| PlotMetadata.SummedWords | src/plot/metadata.py:31-34 | summing word counts keeps "Word Count" and labels it "Number of Words"; also modelled: `src/plot/metadata.py:69-75` |
| PlotMetadata.SummedField | src/plot/metadata.py:69-75 | summing a field with stored description and label keeps the description and puts "Number of " before the label |
| PlotMetadata.Metadata.constructor | src/plot/metadata.py:5-50 | the store starts as the catalog |
| PlotMetadata.Metadata.SetGroupBy | src/plot/metadata.py:69-75 | the store becomes `AfterGroupBy` of the old store |
| PlotMetadata.Metadata.GeneratePlotLabels | src/plot/metadata.py:77-98 | the title and y label computed from the current store |
| PlotTransformer.AddedFields | src/plot/plot_transformer.py:20-22 | the names of the "add_field" entries, never more than the log holds; a missing key raises |
| PlotTransformer.Title | src/plot/plot_transformer.py:14-23 | the added fields joined with " vs. " |
| PlotTransformer.Transform | src/plot/plot_transformer.py:6-12 | fewer than two columns is the ValueError "Not enough data columns to plot."; otherwise the first two columns are x and y and the title comes from the log |
| PlotTransformer.JoinSnoc | src/plot/plot_transformer.py:20 | joining one more part adds the separator and the part, or is the part alone |
| PlotTransformer.OtherEntriesIgnored | src/plot/plot_transformer.py:21 | entries of other operations do not change the added fields |
| PlotTransformer.AddedFieldExtendsTitle | src/plot/plot_transformer.py:20-22 | an "add_field" entry extends the title by " vs. " and its name |
| PlotTransformer.NoAddedFieldsEmptyTitle | src/plot/plot_transformer.py:20-22 | a log without "add_field" entries gives the empty title |
| PlotTransformer.AddedNames | src/plot/database_transformer.py:20-31 | the names of the fields the calls added, in call order |
| PlotTransformer.LogsAfterPrefix | src/plot/database_transformer.py:18 | the log of a chain minus its last entry is the log of the chain minus its last call |
| PlotTransformer.LoggedAddedFields | src/plot/plot_transformer.py:20-22 | a log written by the transformer names exactly the added fields in call order; grouping entries log their aggregation, so they never count; also modelled: `src/plot/database_transformer.py:31-49` |
| PlotTransformer.TitleFromCalls | src/plot/plot_transformer.py:14-23 | from a fresh or reset transformer the title joins the added fields with " vs. ", whatever else was called; also modelled: `src/plot/database_transformer.py:14-88` |
| RpPlotBuilder.Reduce | src/rp_plot_builder.py:29-38 | each aggregation step reduces the group with the pandas reduction named by its own value |
| RpPlotBuilder.FieldSeries | src/rp_plot_builder.py:101-111 | hour, day and date are read from the "date" timestamps and keep the name "date"; any other field is its source column, failing exactly when that column is missing |
| RpPlotBuilder.Concat | src/rp_plot_builder.py:129 | the series becomes a new last column and every earlier column is kept; an empty frame always accepts it, an aligned frame without that name always does |
| RpPlotBuilder.FieldStepAppends | src/rp_plot_builder.py:127-129 | a field step appends exactly one new column holding the field's series and keeps all earlier columns |
| RpPlotBuilder.GroupByStepSpec | src/rp_plot_builder.py:130-135 | grouping fails to unpack unless there are exactly two columns; otherwise the first column becomes its distinct values in ascending order, and each row's second cell aggregates the second column over the non-empty group of rows carrying the row's key |
| RpPlotBuilder.ValueCountsSpec | src/rp_plot_builder.py:47-51 | value counts fail to unpack unless there is one column; the result has that column and "count", sorted by value |
| RpPlotBuilder.SortStepSpec | src/rp_plot_builder.py:52-57 | a sort takes exactly one argument; the result is a permutation of the rows, ordered by that column in the named direction |
| RpPlotBuilder.PlotStepSpec | src/rp_plot_builder.py:113-119 | a chart is made exactly when there are two columns, with the first on x and the second on y |
| RpPlotBuilder.Interpret | src/rp_plot_builder.py:126-141 | only a plot step makes a figure, and a step after a figure is an error (`Unmodelled`, see "## Left out") |
| RpPlotBuilder.Replay | src/rp_plot_builder.py:121-143 | a build returns a figure only when its last step is a plot step |
| RpPlotBuilder.ReplayFailStops | src/rp_plot_builder.py:125-143 | once a step raises, the whole build raises the same error |
| RpPlotBuilder.ReplayPrefixOk | src/rp_plot_builder.py:125-143 | a successful build succeeded at every prefix of its steps |
| RpPlotBuilder.ReplaySnoc | src/rp_plot_builder.py:125-143 | a successful build succeeded before its last step, which then ran on the state reached so far |
| RpPlotBuilder.GroupedChartAxes | src/rp_plot_builder.py:126-138 | field, field, aggregation, chart: a successful build plots the first field on x and the aggregated second on y |
| RpPlotBuilder.RPPlotBuilder.constructor | src/rp_plot_builder.py:77-79 | the builder keeps the source table and starts with no steps |
| RpPlotBuilder.RPPlotBuilder.AddStep | src/rp_plot_builder.py:81-86 | the step with its arguments is appended to the recorded steps |
| RpPlotBuilder.RPPlotBuilder.Reset | src/rp_plot_builder.py:149-150 | the recorded steps become empty |
| RpPlotBuilder.RPPlotBuilder.Build | src/rp_plot_builder.py:121-143 | the loop returns the replay of the recorded steps from an empty frame, or the first step's error, and changes nothing |
| IsValidPlot.KindOf | src/is_valid_plot.py:5-17 | a field's kind is its entry in the seven-field table; any other name raises KeyError |
| IsValidPlot.IsValidLine | src/is_valid_plot.py:20-47 | raises KeyError exactly when y is unknown; an accepted line has the date on x, a different y, and is tagged "line" |
| IsValidPlot.IsValidBar | src/is_valid_plot.py:50-77 | raises KeyError exactly when x or y is unknown; an accepted bar has distinct axes, never the date on y, and is tagged "bar" |
| IsValidPlot.IsValidScatter | src/is_valid_plot.py:81-84 | False exactly for a context outside author, date, word count and reaction count; never a truthy verdict |
| IsValidPlot.LineLookup | src/is_valid_plot.py:20-21 | the line validator raises KeyError on y exactly when y is unknown; x is never looked up |
| IsValidPlot.BarLookup | src/is_valid_plot.py:50-52 | the bar validator raises KeyError for the first unknown of x, then y |
| IsValidPlot.LineRejectedIff | src/is_valid_plot.py:20-47 | a line is rejected exactly when x equals y, x is not the date, or y is ordinal; the final fall-through is unreachable |
| IsValidPlot.LineAggregation | src/is_valid_plot.py:36-46 | an accepted line is tagged "line" and aggregates count as "count", numericals by "sum", categories by "nunique" |
| IsValidPlot.NoLineOverDate | src/is_valid_plot.py:23-29 | no line with the date on y is accepted |
| IsValidPlot.ValidLines | src/is_valid_plot.py:20-47 | the accepted lines are exactly date against reaction count, word count, author or count |
| IsValidPlot.BarRejectedIff | src/is_valid_plot.py:50-77 | a bar is rejected exactly when x equals y, x is neither reaction count nor ordinal, y is ordinal, or y is the date |
| IsValidPlot.BarAggregation | src/is_valid_plot.py:66-76 | an accepted bar is tagged "bar" with the same aggregation mapping as lines |
| IsValidPlot.ValidBars | src/is_valid_plot.py:50-77 | the accepted bars are exactly hour, day or reaction count against a different one of reaction count, word count, author or count |
| IsValidPlot.SameAggregation | src/is_valid_plot.py:36-46 | where a line and a bar both accept the same y, they choose the same aggregation |
| Controls.Holds | src/frontend/controls.py:10-17 | the date conditions compare with DATE; the temporal condition raises for a field without a catalog entry and otherwise negates its temporal flag |
| Controls.TabControls | src/frontend/controls.py:7-19 | line: non-temporal y and a date-only x starting on the date; bar: non-date y and any x; an unknown tab raises KeyError |
| Controls.Dropdown | src/frontend/controls.py:26-35 | succeeds exactly when every field has a catalog entry; offers only fields meeting the condition, with their labels, and every labelled one that does |
| Controls.WholeEnumRaises | src/frontend/controls.py:29-33 | over the whole field enum every dropdown raises, because a member has no catalog entry |
| Controls.DropdownCatalogued | src/frontend/controls.py:29-33 | the corrected dropdown, which skips members without a catalog entry: it offers only listed fields that meet the condition, with their non-empty labels, and every catalogued labelled one that does |
| Controls.CataloguedAgrees | src/frontend/controls.py:29-33 | wherever the dropdown as written builds, the corrected one builds the same options |
| Controls.WholeEnumCatalogued | src/frontend/controls.py:29-33 | over the whole field enum the corrected dropdown offers exactly the catalogued, labelled members meeting the condition |
| Controls.LineOffersNonTemporalY | src/frontend/controls.py:8-11 | the line tab's y dropdown offers no temporal field |
| Controls.LineOffersOnlyDateX | src/frontend/controls.py:12-15 | the line tab's x dropdown starts on the date and offers nothing else |
| Controls.BarExcludesDateY | src/frontend/controls.py:17 | the bar tab's y dropdown never offers the date |
| Controls.SelectionTemporal | src/frontend/controls.py:168 | an empty selection is not temporal |
| Controls.AnyTemporal | src/frontend/controls.py:166-169 | succeeds exactly when every selection can be classified, and is true exactly when some selection is temporal |
| Controls.ProcessOption | src/frontend/controls.py:171-193 | keeps label and value; disabled exactly when the field is chosen in another dropdown but not this one, or is temporal while a temporal field is selected somewhere (`has_selected_temporal`) and this dropdown's own selection is not temporal |
| Controls.ProcessDropdown | src/frontend/controls.py:196 | one processed option per input option, in order, failing exactly when one option fails |
| Controls.ProcessAll | src/frontend/controls.py:195-198 | one processed list per dropdown, in order, dropdown i judged against selection i |
| Controls.UpdateDropdownOptions | src/frontend/controls.py:159-198 | a selection that cannot be classified makes the callback raise; on success there is one list per dropdown, each as long as its input |
| Controls.SameShape | src/frontend/controls.py:195-198 | the output has the input's shape and keeps every label and value |
| Controls.DisabledIff | src/frontend/controls.py:159-198 | an option is disabled exactly for a duplicate choice or a second temporal field |
| Controls.OwnSelectionEnabled | src/frontend/controls.py:175-187 | a dropdown's own selection is never disabled |
| Controls.OnlyDuplicatesWithoutTemporal | src/frontend/controls.py:175-192 | with no temporal selection, exactly the fields chosen elsewhere are disabled |
| Controls.SucceedsOnCatalogued | src/frontend/controls.py:166-198 | with catalogued fields everywhere and a selection for every dropdown, the callback succeeds |

## Left out

- The Dash layout, callback wiring and pages are not part of this model. They are component trees bound to the Dash callback context. The dropdown rule is modelled once, from `src/frontend/controls.py`.
- Data ingestion (CSV, parquet and S3 loaders, the dummy-data generator, the message processors) is not part of this model. It is file and network I/O.
- Plotly is not modelled; its chart calls, layout updates and trace additions are foreign calls. A figure is a record of what the builder passes to plotly and sets on it.
- Moving averages: the numeric values are float means, which are not modelled. The model captures only which positions are defined (`min_periods=3`) and the trace names.
- Floating point and NaN are not modelled. Numbers are integers or exact reals, and a sum or mean stays exact.
- `BackendTransformer.Derivation`: a column's kind is read off its cells, so in the model the `.dt` accessor never fails on an empty column. pandas leaves an object-dtype column after `.dt.date` and raises AttributeError there even on an empty table. The same holds for `FrontendPlot.AddFieldStep`, which derives through the same rule: on an empty table, `add_field("date")` followed by `add_field("hour")` passes in the model.
- `Values.PyInt`: strings are parsed as an optional sign and ASCII digits. Python's `int` also accepts surrounding whitespace, `_` between digits and non-ASCII decimal digits, which the model rejects with ValueError.
- `Values.Show`: a non-integral float renders as the placeholder "<float>" and a reaction dict as "{...}", not as Python's text (shortest round-trip decimal digits; the dict's `repr`). Only titles and labels that embed such a value are affected.
- `Sorting.SortBySorted`: pandas' default sort is not guaranteed stable; the model sorts stably, a stronger choice than pandas promises.
- `Grouping.ValueCounts`: pandas leaves the order of equal counts unspecified; the model keeps first-occurrence order among ties.
- `Tables.Project`: pandas allows duplicate column names, which rows-as-maps cannot hold; such a selection is `Unmodelled`.
- `RpPlotBuilder.Concat`: pandas aligns a joined series by index. The model joins row by row and reports `Unmodelled` once a sort has reordered the rows, or when the lengths differ.
- `RpPlotBuilder.RPPlotBuilder.Build`: a step applied after a chart step is `Unmodelled`. The source would hand a plotly figure to pandas or unpack it.
- The dynamic `setattr` aliases of `src/rp_plot_builder.py:88-99` are not modelled; the step list is built with `AddStep` directly. Called with a positional argument, such an alias would take that argument as the step itself.
- `PlotDatabaseTransformer.DatabaseTransformer.AddField`: assigning a column into a working table whose rows a sort has reordered realigns by index in pandas; the model reports `Unmodelled` there, and when the working table has a different length.
- `src/plot/enums.py` is not part of this model. `PlotEnums` declares the members the plot package uses, each a string equal to its value.
- `src/plot/plot_builder.py` and the pipeline example scripts are not part of this model: the first relies on names its transformer does not provide, and the second only loads data.
- `src/backend/plot_transformer.py` is not part of this model. A plot step records the figure it would initialise from (kind, table, metadata, x, y), and the log-scale and moving-average calls are recorded as a list of mutations.
- The `pipeline` package's enums are not part of this model; the eager builder in `src/frontend/plot.py` is modelled over the backend catalog, whose derivations it repeats.
- `dashboard.models` and `src/core/enums.py`, imported by `src/dashboard/graph_engine.py` and the core builder, are not part of this model. The graph engine is modelled with the core records and the catalog of `src/enums.py`.
- `CorePlotBuilder.PlotBuilder.Build`: the builder's state after a failing step is not stated by `Build` itself. Each step method states its own failure state; for the two preparations that is the partly prepared table (`CoreModels.PrepareReached`).
- The `PlotType` import of `src/dashboard/plot_builder.py:37` and `src/dashboard/graph_engine.py:36` is not modelled: it raises ImportError, so neither dashboard module loads as written. Their builders are modelled (through `CorePlotBuilder` and `CoreModels.Generation`) as if `PlotType` were the `Plot` enum of `src/enums.py:136`.
- `BackendExamples`: the end-to-end group-by and cumulative examples on the five-message table are not computed, because of their cost. The reaction counts [2, 1, 1, 0, 3] and the running totals are.
- The backend `scene_id` alias names a field `src/backend/enums.py` does not define, so it raises AttributeError when called and queues nothing.
- The print loops of `src/is_valid_plot.py` (`print_valid_combinations`) are not modelled; they are output. The lists of valid combinations they print are stated as `IsValidPlot.ValidLines` and `IsValidPlot.ValidBars`.
- Logging (`logger.info` summaries) and JSON/zlib/base64 serialisation are not modelled.
- The time zone of timestamps is fixed by the loader and not modelled.
- Categorical dtypes and `observed=False` grouping are not modelled; group keys come out in ascending order.

## Findings

| source | as written | input that shows it | evidently intended | confidence | as-written member | corrected member |
|---|---|---|---|---|---|---|
| src/core/models.py:139 | `ascending=order == Text.ASCENDING`, but `Text` (src/enums.py:376-384) has no `ASCENDING` member, so the attribute lookup raises AttributeError | any sort selection with a truthy order and axis (dashboard copy at src/dashboard/plot_builder.py:148) | compare the order with the "ascending" option's value | not executed | CoreModels.SortFromRawAsWritten, CoreModels.SortAsWrittenAlwaysFails, CoreModels.FigureFromRawAsWritten | CoreModels.SortFromRaw, CoreModels.FigureFromRaw |
| src/frontend/controls.py:29-33 | the dropdown reads `field.label` for every member of `Field`, but REACTIONS (src/backend/enums.py:18) has no catalog entry, so `self._metadata[self.name]` (src/backend/enums.py:72) raises KeyError("REACTIONS") | `make_controls("line")`, or any tab | skip the members that have no catalog entry, as the comment "Only used internally for querying" suggests | not executed | Controls.Dropdown, Controls.WholeEnumRaises | Controls.DropdownCatalogued, Controls.CataloguedAgrees, Controls.WholeEnumCatalogued |
