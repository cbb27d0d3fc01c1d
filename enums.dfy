/** The catalog of the config-driven generation: the fields with their axis
    and title labels and classification flags, the aggregations with their
    prefixes, the chart kinds, the filter operators and their semantics on a
    cell, the filter types with their operator lists, defaults and value
    post-processing, and the field lists each tab allows. */
module Enums {
  import opened Wrappers
  import opened Values
  import Grouping

  // ---------------------------------------------------------------------
  // Fields

  datatype Field =
    | Author | ChannelName | Count | Date | Day | Hour | ReactionCount | SceneEnd | WordCount
    /** Internal columns: the raw timestamp and the reaction map. */
    | Datetime | Reactions

  /** The member's value, which is also its column name. */
  function FieldValue(f: Field): string {
    match f
    case Author => "author"
    case ChannelName => "channel_name"
    case Count => "count"
    case Date => "date"
    case Day => "day"
    case Hour => "hour"
    case ReactionCount => "reaction_count"
    case SceneEnd => "scene_end"
    case WordCount => "word_count"
    case Datetime => "datetime"
    case Reactions => "reactions"
  }

  /** The members in definition order, the order `for field in Field` visits. */
  const AllFields: seq<Field> :=
    [Author, ChannelName, Count, Date, Day, Hour, ReactionCount, SceneEnd, WordCount, Datetime, Reactions]

  lemma AllFieldsComplete(f: Field)
    ensures f in AllFields
  {
  }

  /** `Field(s)`: look a member up by value. */
  function FieldOf(s: string): (r: Result<Field>)
    ensures r.Ok? ==> FieldValue(r.value) == s
    ensures r.Err? ==> r.error.ValueError? && forall f :: FieldValue(f) != s
  {
    if s == "author" then Ok(Author)
    else if s == "channel_name" then Ok(ChannelName)
    else if s == "count" then Ok(Count)
    else if s == "date" then Ok(Date)
    else if s == "day" then Ok(Day)
    else if s == "hour" then Ok(Hour)
    else if s == "reaction_count" then Ok(ReactionCount)
    else if s == "scene_end" then Ok(SceneEnd)
    else if s == "word_count" then Ok(WordCount)
    else if s == "datetime" then Ok(Datetime)
    else if s == "reactions" then Ok(Reactions)
    else Err(ValueError("'" + s + "' is not a valid Field"))
  }

  lemma FieldOfValue(f: Field)
    ensures FieldOf(FieldValue(f)) == Ok(f)
  {
  }

  /** One entry of the metadata dict; a key the entry does not list is
      `None` (labels) or `False` (flags) when read with `.get`. */
  datatype Entry = Entry(axisLabel: Option<string>, titleLabel: Option<string>, ownLabel: Option<string>,
                         numerical: bool, categorical: bool, temporal: bool)

  const NoEntry: Entry := Entry(None, None, None, false, false, false)

  /** `field._metadata`: the literal dict, `{}` for the internal fields. */
  function Metadata(f: Field): Entry {
    match f
    case Author => Entry(Some("Users"), None, None, false, true, false)
    case Date => Entry(Some("Date"), None, None, false, true, true)
    case Hour => Entry(Some("Hour of Day"), None, None, false, true, true)
    case Day => Entry(Some("Day of Month"), None, None, false, true, true)
    case ReactionCount => Entry(Some("Reactions"), None, Some("Reaction Count"), true, false, false)
    case WordCount => Entry(Some("Words"), None, Some("Word Count"), true, false, false)
    case ChannelName => Entry(Some("Channels"), None, None, false, true, false)
    case SceneEnd => Entry(Some("Scene Ends"), None, None, true, false, false)
    case Count => Entry(Some("Messages"), None, None, true, false, false)
    case Datetime => NoEntry
    case Reactions => NoEntry
  }

  function AxisLabel(f: Field): Option<string> {
    Metadata(f).axisLabel
  }

  /** `title_label`, which falls back to the axis label. */
  function TitleLabel(f: Field): (r: Option<string>)
    ensures Metadata(f).titleLabel.None? ==> r == AxisLabel(f)
  {
    if Metadata(f).titleLabel.Some? then Metadata(f).titleLabel else AxisLabel(f)
  }

  /** `label`, which falls back to the axis label. */
  function Label(f: Field): (r: Option<string>)
    ensures Metadata(f).ownLabel.None? ==> r == AxisLabel(f)
  {
    if Metadata(f).ownLabel.Some? then Metadata(f).ownLabel else AxisLabel(f)
  }

  predicate Numerical(f: Field) { Metadata(f).numerical }
  predicate Categorical(f: Field) { Metadata(f).categorical }
  predicate Temporal(f: Field) { Metadata(f).temporal }

  /** No entry names a title label, so every title label is the axis label;
      only REACTION_COUNT and WORD_COUNT have a label of their own. */
  lemma LabelsFallBack(f: Field)
    ensures TitleLabel(f) == AxisLabel(f)
    ensures f == ReactionCount ==> Label(f) == Some("Reaction Count")
    ensures f == WordCount ==> Label(f) == Some("Word Count")
    ensures f != ReactionCount && f != WordCount ==> Label(f) == AxisLabel(f)
  {
  }

  /** The internal fields have no metadata: no labels and every flag false.
      Every other field has an axis label. */
  lemma InternalFieldsUnlabelled(f: Field)
    ensures AxisLabel(f).None? <==> f == Datetime || f == Reactions
    ensures f == Datetime || f == Reactions ==>
      Label(f).None? && TitleLabel(f).None? && !Numerical(f) && !Categorical(f) && !Temporal(f)
  {
  }

  /** The classification: temporal fields are categorical too, and no field
      is both numerical and categorical. */
  lemma Classification(f: Field)
    ensures Temporal(f) <==> f in {Date, Hour, Day}
    ensures Categorical(f) <==> f in {Date, Hour, Day, Author, ChannelName}
    ensures Numerical(f) <==> f in {ReactionCount, WordCount, SceneEnd, Count}
  {
  }

  // ---------------------------------------------------------------------
  // Aggregations

  datatype GroupBy = Sum | Mean | Nunique

  function GroupByValue(g: GroupBy): string {
    match g
    case Sum => "sum"
    case Mean => "mean"
    case Nunique => "nunique"
  }

  /** `GroupBy(s)`. */
  function GroupByOf(s: string): (r: Result<GroupBy>)
    ensures r.Ok? ==> GroupByValue(r.value) == s
    ensures r.Err? ==> r.error.ValueError? && forall g :: GroupByValue(g) != s
  {
    if s == "sum" then Ok(Sum)
    else if s == "mean" then Ok(Mean)
    else if s == "nunique" then Ok(Nunique)
    else Err(ValueError("'" + s + "' is not a valid GroupBy"))
  }

  /** `GroupBy.__call__` and the name `agg` passes to pandas: the same reduction. */
  function Reduction(g: GroupBy): (a: Grouping.Agg)
    ensures Grouping.AggName(a) == GroupByValue(g)
  {
    match g
    case Sum => Grouping.Sum
    case Mean => Grouping.Mean
    case Nunique => Grouping.Nunique
  }

  /** The prefix dict of each member, as literal key/value pairs. */
  function Prefixes(g: GroupBy): seq<(string, string)> {
    match g
    case Sum => [("axis_prefix", "Number of ")]
    case Mean => [("title_prefix", "Average "), ("axis_prefix", "Avg. ")]
    case Nunique => [("title_prefix", "Unique "), ("axis_prefix", "Unique ")]
  }

  /** `d.get(key, "")` on a list of pairs. */
  function LookupOr(d: seq<(string, string)>, key: string, fallback: string): (r: string)
    ensures (forall i :: 0 <= i < |d| ==> d[i].0 != key) ==> r == fallback
    ensures (exists i :: 0 <= i < |d| && d[i].0 == key) ==> exists i :: 0 <= i < |d| && d[i] == (key, r)
    decreases |d|
  {
    if |d| == 0 then fallback
    else if d[0].0 == key then d[0].1
    else
      var r := LookupOr(d[1..], key, fallback);
      assert forall i :: 0 < i < |d| ==> d[i] == d[1..][i - 1];
      r
  }

  function TitlePrefix(g: GroupBy): string {
    LookupOr(Prefixes(g), "title_prefix", "")
  }

  function AxisPrefix(g: GroupBy): string {
    LookupOr(Prefixes(g), "axis_prefix", "")
  }

  /** The prefixes each aggregation puts before a label; SUM lists no title
      prefix, so it reads as "". */
  lemma PrefixTable()
    ensures AxisPrefix(Sum) == "Number of " && TitlePrefix(Sum) == ""
    ensures AxisPrefix(Mean) == "Avg. " && TitlePrefix(Mean) == "Average "
    ensures AxisPrefix(Nunique) == "Unique " && TitlePrefix(Nunique) == "Unique "
  {
    assert Prefixes(Mean)[1..] == [("axis_prefix", "Avg. ")];
    assert Prefixes(Nunique)[1..] == [("axis_prefix", "Unique ")];
  }

  // ---------------------------------------------------------------------
  // Chart kinds

  datatype Plot = Bar | Scatter | Line

  function PlotValue(p: Plot): string {
    match p
    case Bar => "bar"
    case Scatter => "scatter"
    case Line => "line"
  }

  // ---------------------------------------------------------------------
  // Filter operators

  datatype Operator = OpLt | OpLeq | OpGt | OpGeq | OpEq | OpBefore | OpDuring | OpAfter | OpIn | OpNotIn

  function OperatorValue(op: Operator): string {
    match op
    case OpLt => "<"
    case OpLeq => "<="
    case OpGt => ">"
    case OpGeq => ">="
    case OpEq => "="
    case OpBefore => "before"
    case OpDuring => "during"
    case OpAfter => "after"
    case OpIn => "in"
    case OpNotIn => "not in"
  }

  /** `Operator(s)`. */
  function OperatorOf(s: string): (r: Result<Operator>)
    ensures r.Ok? ==> OperatorValue(r.value) == s
    ensures r.Err? ==> r.error.ValueError? && forall op :: OperatorValue(op) != s
  {
    if s == "<" then Ok(OpLt)
    else if s == "<=" then Ok(OpLeq)
    else if s == ">" then Ok(OpGt)
    else if s == ">=" then Ok(OpGeq)
    else if s == "=" then Ok(OpEq)
    else if s == "before" then Ok(OpBefore)
    else if s == "during" then Ok(OpDuring)
    else if s == "after" then Ok(OpAfter)
    else if s == "in" then Ok(OpIn)
    else if s == "not in" then Ok(OpNotIn)
    else Err(ValueError("'" + s + "' is not a valid Operator"))
  }

  /** `Operator.__call__` on one cell of the series. Ordering values Python
      cannot compare is a TypeError, `==` never fails, and `isin` needs a
      list. */
  function Holds(op: Operator, cell: Value, value: Value): (r: Result<bool>)
    ensures op in {OpLt, OpBefore} ==> (r.Ok? <==> Comparable(cell, value)) && (r.Ok? ==> (r.value <==> !Leq(value, cell)))
    ensures op == OpLeq ==> (r.Ok? <==> Comparable(cell, value)) && (r.Ok? ==> (r.value <==> Leq(cell, value)))
    ensures op in {OpGt, OpAfter} ==> (r.Ok? <==> Comparable(value, cell)) && (r.Ok? ==> (r.value <==> !Leq(cell, value)))
    ensures op == OpGeq ==> (r.Ok? <==> Comparable(value, cell)) && (r.Ok? ==> (r.value <==> Leq(value, cell)))
    ensures op in {OpEq, OpDuring} ==> r == Ok(PyEq(cell, value))
    ensures op == OpIn ==> (r.Ok? <==> value.VList?) && (r.Ok? ==> (r.value <==> PyIn(cell, value.items)))
    ensures op == OpNotIn ==> (r.Ok? <==> value.VList?) && (r.Ok? ==> (r.value <==> !PyIn(cell, value.items)))
    ensures r.Err? ==> r.error == TypeError
  {
    match op
    case OpLt => Less(cell, value)
    case OpBefore => Less(cell, value)
    case OpLeq => LessEq(cell, value)
    case OpGt => Less(value, cell)
    case OpAfter => Less(value, cell)
    case OpGeq => LessEq(value, cell)
    case OpEq => Ok(PyEq(cell, value))
    case OpDuring => Ok(PyEq(cell, value))
    case OpIn => if value.VList? then Ok(PyIn(cell, value.items)) else Err(TypeError)
    case OpNotIn => if value.VList? then Ok(!PyIn(cell, value.items)) else Err(TypeError)
  }

  /** The aliases mean exactly their inequality, and NOT_IN is the
      complement of IN wherever IN is defined. */
  lemma OperatorAliases(cell: Value, value: Value)
    ensures Holds(OpBefore, cell, value) == Holds(OpLt, cell, value)
    ensures Holds(OpAfter, cell, value) == Holds(OpGt, cell, value)
    ensures Holds(OpDuring, cell, value) == Holds(OpEq, cell, value)
    ensures Holds(OpIn, cell, value).Ok? <==> Holds(OpNotIn, cell, value).Ok?
    ensures Holds(OpIn, cell, value).Ok? ==> Holds(OpNotIn, cell, value).value == !Holds(OpIn, cell, value).value
  {
  }

  /** On numbers every comparison is defined, `<=` is `<` or `=`, `>=` is
      `>` or `=`, and `<` and `>` never hold together. */
  lemma Trichotomy(cell: Value, value: Value)
    requires IsNumeric(cell) && IsNumeric(value)
    ensures Holds(OpLt, cell, value).Ok? && Holds(OpEq, cell, value).Ok? && Holds(OpGt, cell, value).Ok?
    ensures Holds(OpLeq, cell, value).Ok? && Holds(OpGeq, cell, value).Ok?
    ensures Holds(OpLeq, cell, value).value <==> Holds(OpLt, cell, value).value || Holds(OpEq, cell, value).value
    ensures Holds(OpGeq, cell, value).value <==> Holds(OpGt, cell, value).value || Holds(OpEq, cell, value).value
    ensures !(Holds(OpLt, cell, value).value && Holds(OpGt, cell, value).value)
  {
  }

  /** The boolean mask `operator(series, value)`: one answer per cell, or
      the first cell's error. */
  function Mask(op: Operator, cells: seq<Value>, value: Value): (r: Result<seq<bool>>)
    ensures r.Ok? <==> forall k :: 0 <= k < |cells| ==> Holds(op, cells[k], value).Ok?
    ensures r.Ok? ==> |r.value| == |cells| && forall k :: 0 <= k < |cells| ==> r.value[k] == Holds(op, cells[k], value).value
    decreases |cells|
  {
    if |cells| == 0 then Ok([])
    else
      var b :- Holds(op, cells[0], value);
      var rest := Mask(op, cells[1..], value);
      assert forall k :: 0 < k < |cells| ==> cells[k] == cells[1..][k - 1];
      if rest.Err? then Err(rest.error) else Ok([b] + rest.value)
  }

  // ---------------------------------------------------------------------
  // Filter types

  datatype Filter = DateFilter | AuthorFilter | ChannelFilter | HourFilter | ReactionCountFilter

  /** Each filter type is named after, and filters, the field of the same value. */
  function FilterField(ft: Filter): Field {
    match ft
    case DateFilter => Date
    case AuthorFilter => Author
    case ChannelFilter => ChannelName
    case HourFilter => Hour
    case ReactionCountFilter => ReactionCount
  }

  /** `Filter(s)`: only the five filterable field values are filter types. */
  function FilterOf(s: string): (r: Result<Filter>)
    ensures r.Ok? ==> FieldValue(FilterField(r.value)) == s
    ensures r.Err? ==> r.error.ValueError? && forall ft :: FieldValue(FilterField(ft)) != s
  {
    if s == "date" then Ok(DateFilter)
    else if s == "author" then Ok(AuthorFilter)
    else if s == "channel_name" then Ok(ChannelFilter)
    else if s == "hour" then Ok(HourFilter)
    else if s == "reaction_count" then Ok(ReactionCountFilter)
    else Err(ValueError("'" + s + "' is not a valid Filter"))
  }

  function FilterLabel(ft: Filter): string {
    match ft
    case DateFilter => "Date"
    case AuthorFilter => "Author"
    case ChannelFilter => "Channel Name"
    case HourFilter => "Hour"
    case ReactionCountFilter => "Reaction Count"
  }

  const StandardOperators: seq<Operator> := [OpLt, OpLeq, OpGt, OpGeq, OpEq]

  function Operators(ft: Filter): seq<Operator> {
    match ft
    case DateFilter => [OpBefore, OpDuring, OpAfter]
    case AuthorFilter => [OpIn, OpNotIn]
    case ChannelFilter => [OpIn, OpNotIn]
    case HourFilter => StandardOperators
    case ReactionCountFilter => StandardOperators
  }

  /** The operator a new filter row starts with, always one the row offers. */
  function DefaultOperator(ft: Filter): (r: Operator)
    ensures r in Operators(ft)
  {
    match ft
    case DateFilter => OpBefore
    case AuthorFilter => OpIn
    case ChannelFilter => OpIn
    case HourFilter => OpGeq
    case ReactionCountFilter => OpGeq
  }

  /** Membership filters are offered only for the categorical name fields,
      the date aliases only for DATE, and the inequalities for the hour and
      the reaction count. */
  lemma OperatorLists(ft: Filter)
    ensures (OpIn in Operators(ft)) <==> ft in {AuthorFilter, ChannelFilter}
    ensures (OpBefore in Operators(ft)) <==> ft == DateFilter
    ensures (OpLt in Operators(ft)) <==> ft in {HourFilter, ReactionCountFilter}
  {
  }

  function DaysInMonth(year: int, month: int): int {
    if month == 2 then (if (year % 4 == 0 && year % 100 != 0) || year % 400 == 0 then 29 else 28)
    else if month in {4, 6, 9, 11} then 30
    else 31
  }

  predicate ValidDate(d: CalendarDate) {
    1 <= d.month <= 12 && 1 <= d.day <= DaysInMonth(d.year, d.month)
  }

  /** The `YYYY-MM-DD` shape the date picker emits. */
  predicate IsoShape(s: string) {
    |s| == 10 && s[4] == '-' && s[7] == '-' && AllDigits(s[..4]) && AllDigits(s[5..7]) && AllDigits(s[8..])
  }

  function IsoFields(s: string): CalendarDate
    requires IsoShape(s)
  {
    CalendarDate(DigitsValue(s[..4]), DigitsValue(s[5..7]), DigitsValue(s[8..]))
  }

  /** `pd.to_datetime(value).date()`. */
  function ToDate(v: Value): (r: Result<Value>)
    ensures r.Ok? ==> r.value.VDate?
    ensures v.VDate? ==> r == Ok(v)
    ensures v.VTime? ==> r == Ok(VDate(v.t.date))
    ensures v.VStr? && IsoShape(v.s) ==> (r.Ok? <==> ValidDate(IsoFields(v.s)))
    ensures r.Ok? && v.VStr? ==> IsoShape(v.s) && r == Ok(VDate(IsoFields(v.s))) && ValidDate(r.value.d)
  {
    match v
    case VDate(d) => Ok(v)
    case VTime(t) => Ok(VDate(t.date))
    case VStr(s) =>
      if !IsoShape(s) then Err(Unmodelled("a date string not of the form YYYY-MM-DD"))
      else if ValidDate(IsoFields(s)) then Ok(VDate(IsoFields(s)))
      else Err(ValueError("day is out of range for month"))
    case _ => Err(Unmodelled("pd.to_datetime on a value that is not a date or a string"))
  }

  /** `filter.post_processing(value)`: DATE parses a date, HOUR applies `int`,
      the others return the value unchanged. */
  function PostProcess(ft: Filter, v: Value): (r: Result<Value>)
    ensures ft !in {DateFilter, HourFilter} ==> r == Ok(v)
    ensures ft == HourFilter ==> (r.Ok? <==> PyInt(v).Ok?) && (r.Ok? ==> r.value == VInt(PyInt(v).value))
    ensures ft == DateFilter ==> r == ToDate(v)
  {
    match ft
    case DateFilter => ToDate(v)
    case HourFilter =>
      var i :- PyInt(v);
      Ok(VInt(i))
    case _ => Ok(v)
  }

  lemma {:induction false} NatTextWidth(n: nat, w: nat)
    requires w >= 1 && n < Pow10(w) && (w == 1 || Pow10(w - 1) <= n)
    ensures |NatText(n)| == w
    decreases w
  {
    if w > 1 {
      NatTextWidth(n / 10, w - 1);
    }
  }

  function Pow10(w: nat): nat {
    if w == 0 then 1 else 10 * Pow10(w - 1)
  }

  /** A two-digit field reads back as the number `Padded` wrote. */
  lemma {:induction false} PaddedTwo(n: nat)
    requires n < 100
    ensures |Padded(n, 2)| == 2 && AllDigits(Padded(n, 2)) && DigitsValue(Padded(n, 2)) == n
  {
    NatTextRoundTrip(n);
    if n < 10 {
      var p := Padded(n, 2);
      assert p == "0" + [Digit(n)];
      assert p[..1] == "0";
      assert DigitsValue(p[..1]) == 0 by { assert p[..1][..0] == []; }
    } else {
      NatTextWidth(n, 2);
    }
  }

  /** An HOUR filter value written by `str` reads back as that integer. */
  lemma HourRoundTrip(i: int)
    ensures PostProcess(HourFilter, VStr(IntText(i))) == Ok(VInt(i))
  {
    IntTextRoundTrip(i);
  }

  /** A valid four-digit-year date written as text parses back to itself. */
  lemma DateRoundTrip(d: CalendarDate)
    requires 1000 <= d.year <= 9999 && ValidDate(d)
    ensures PostProcess(DateFilter, VStr(DateText(d))) == Ok(VDate(d))
  {
    var y := IntText(d.year);
    NatTextWidth(d.year, 4);
    NatTextRoundTrip(d.year);
    PaddedTwo(d.month);
    PaddedTwo(d.day);
    var s := DateText(d);
    assert s == y + "-" + Padded(d.month, 2) + "-" + Padded(d.day, 2);
    assert s[..4] == y;
    assert s[5..7] == Padded(d.month, 2);
    assert s[8..] == Padded(d.day, 2);
    assert IsoShape(s);
    assert IsoFields(s) == d;
  }

  // ---------------------------------------------------------------------
  // Tabs

  datatype Tab = LineTab | BarTab | ScatterTab | Scatter2Tab

  /** One field dropdown of a tab: the fields it offers and its preset. */
  datatype Slot = Slot(allowed: seq<Field>, default: Option<Field>)

  datatype TabSpec = TabSpec(name: string, plot: Plot, primary: Slot, secondary: Slot, tertiary: Option<Slot>)

  /** `if field.label`: a label that is present and not empty. */
  predicate HasLabel(f: Field) { Label(f).Some? && Label(f).value != "" }

  /** The members of `fs` that satisfy `p`, in order. */
  function Keep(fs: seq<Field>, p: Field -> bool): (r: seq<Field>)
    ensures |r| <= |fs|
    ensures forall f :: f in r <==> f in fs && p(f)
    decreases |fs|
  {
    if |fs| == 0 then []
    else
      var rest := Keep(fs[..|fs| - 1], p);
      assert fs == fs[..|fs| - 1] + [fs[|fs| - 1]];
      if p(fs[|fs| - 1]) then rest + [fs[|fs| - 1]] else rest
  }

  function FieldsWithLabel(): seq<Field> {
    Keep(AllFields, HasLabel)
  }

  function NonTemporalFields(): seq<Field> {
    Keep(FieldsWithLabel(), (f: Field) => !Temporal(f))
  }

  /** COUNT is trivial to group by and SCENE_END is a boolean. */
  function GroupableFields(): seq<Field> {
    Keep(FieldsWithLabel(), (f: Field) => f !in {Count, SceneEnd})
  }

  /** `tab._metadata`. */
  function TabMeta(t: Tab): TabSpec {
    match t
    case LineTab => TabSpec("Time Series", Line, Slot(NonTemporalFields(), None), Slot([Date], Some(Date)), None)
    case BarTab => TabSpec("Bar", Bar, Slot(FieldsWithLabel(), None), Slot(GroupableFields(), None), None)
    case ScatterTab =>
      TabSpec("Scatter (2 vars)", Scatter, Slot(FieldsWithLabel(), None), Slot(GroupableFields(), None), None)
    case Scatter2Tab =>
      TabSpec("Scatter (3 vars)", Scatter, Slot(FieldsWithLabel(), None), Slot(FieldsWithLabel(), None),
              Some(Slot(GroupableFields(), None)))
  }

  /** The labelled fields are all fields but the two internal ones; the
      groupable ones leave out COUNT and SCENE_END as well; the non-temporal
      ones leave out DATE, HOUR and DAY. */
  lemma FieldLists(f: Field)
    ensures f in FieldsWithLabel() <==> f !in {Datetime, Reactions}
    ensures f in GroupableFields() <==> f !in {Datetime, Reactions, Count, SceneEnd}
    ensures f in NonTemporalFields() <==> f !in {Datetime, Reactions, Date, Hour, Day}
  {
    AllFieldsComplete(f);
  }

  /** The time-series tab offers only non-temporal primary fields and DATE,
      preset, as the second; only the three-variable scatter has a third
      dropdown, and every preset is one of its dropdown's choices. */
  lemma TabRules(t: Tab)
    ensures TabMeta(LineTab).primary.allowed == NonTemporalFields()
    ensures TabMeta(LineTab).secondary == Slot([Date], Some(Date))
    ensures TabMeta(t).tertiary.Some? <==> t == Scatter2Tab
    ensures TabMeta(t).secondary.default.Some? ==> TabMeta(t).secondary.default.value in TabMeta(t).secondary.allowed
    ensures TabMeta(t).plot == (match t case LineTab => Line case BarTab => Bar case _ => Scatter)
  {
  }

  // ---------------------------------------------------------------------
  // Texts the config parsers compare against

  const YAxisText: string := "Y-Axis"
  const XAxisText: string := "X-Axis"
}
