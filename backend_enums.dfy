/** The closed catalog of the backend generation: the fields a plot can use,
    their descriptions, labels and classification flags, the aggregations
    with their label prefixes, and the inclusive filters with their symbols. */
module BackendEnums {
  import opened Wrappers
  import opened Values
  import Grouping

  datatype Field =
    | Author | Date | Hour | Day | Reactions | ReactionCount | WordCount
    | ChannelName | SceneEnd | Count

  /** The member's value, which is also its column name. */
  function FieldValue(f: Field): string {
    match f
    case Author => "author"
    case Date => "date"
    case Hour => "hour"
    case Day => "day"
    case Reactions => "reactions"
    case ReactionCount => "reaction_count"
    case WordCount => "word_count"
    case ChannelName => "channel_name"
    case SceneEnd => "scene_end"
    case Count => "count"
  }

  /** The member's name, the key of its catalog entry. */
  function FieldName(f: Field): string {
    match f
    case Author => "AUTHOR"
    case Date => "DATE"
    case Hour => "HOUR"
    case Day => "DAY"
    case Reactions => "REACTIONS"
    case ReactionCount => "REACTION_COUNT"
    case WordCount => "WORD_COUNT"
    case ChannelName => "CHANNEL_NAME"
    case SceneEnd => "SCENE_END"
    case Count => "COUNT"
  }

  const AllFields: seq<Field> :=
    [Author, Date, Hour, Day, Reactions, ReactionCount, WordCount, ChannelName, SceneEnd, Count]

  lemma AllFieldsComplete(f: Field)
    ensures f in AllFields
  {
  }

  /** `Field(s)`: look a member up by value. */
  function FieldOf(s: string): (r: Result<Field>)
    ensures r.Ok? ==> FieldValue(r.value) == s
    ensures r.Err? ==> r.error.ValueError? && forall f :: FieldValue(f) != s
  {
    if s == "author" then Ok(Author)
    else if s == "date" then Ok(Date)
    else if s == "hour" then Ok(Hour)
    else if s == "day" then Ok(Day)
    else if s == "reactions" then Ok(Reactions)
    else if s == "reaction_count" then Ok(ReactionCount)
    else if s == "word_count" then Ok(WordCount)
    else if s == "channel_name" then Ok(ChannelName)
    else if s == "scene_end" then Ok(SceneEnd)
    else if s == "count" then Ok(Count)
    else Err(ValueError("'" + s + "' is not a valid Field"))
  }

  /** Looking a member up by its own value gives the member back. */
  lemma FieldOfValue(f: Field)
    ensures FieldOf(FieldValue(f)) == Ok(f)
  {
  }

  /** A catalog entry: the flags a field does not list are false. */
  datatype Entry = Entry(description: string, shortLabel: Option<string>,
                         numerical: bool, categorical: bool, temporal: bool)

  /** The literal catalog; REACTIONS, used only for querying, has no entry. */
  function Catalog(f: Field): Option<Entry> {
    match f
    case Author => Some(Entry("Users", None, false, true, false))
    case Date => Some(Entry("Day", Some("Date"), false, true, true))
    case Hour => Some(Entry("Hour of Day", None, false, true, true))
    case Day => Some(Entry("Day of Month", None, false, true, true))
    case Reactions => None
    case ReactionCount => Some(Entry("Number of Reactions", Some("Reactions"), true, false, false))
    case WordCount => Some(Entry("Word Count", Some("Words"), true, false, false))
    case ChannelName => Some(Entry("Channels", None, false, true, false))
    case SceneEnd => Some(Entry("Scene Ends", Some("Scenes"), true, false, false))
    case Count => Some(Entry("Messages", None, true, false, false))
  }

  /** `field.description`; a KeyError on the member name when there is no entry. */
  function Description(f: Field): (r: Result<string>)
    ensures r.Err? <==> Catalog(f).None?
    ensures r.Err? ==> r.error == KeyError(FieldName(f))
    ensures r.Ok? ==> r.value == Catalog(f).value.description
  {
    match Catalog(f)
    case None => Err(KeyError(FieldName(f)))
    case Some(e) => Ok(e.description)
  }

  /** `field.label`, which falls back to the description. */
  function Label(f: Field): (r: Result<string>)
    ensures r.Err? <==> Catalog(f).None?
    ensures r.Err? ==> r.error == KeyError(FieldName(f))
  {
    match Catalog(f)
    case None => Err(KeyError(FieldName(f)))
    case Some(e) => Ok(if e.shortLabel.Some? then e.shortLabel.value else e.description)
  }

  function Numerical(f: Field): (r: Result<bool>)
    ensures r.Err? <==> Catalog(f).None?
  {
    if Catalog(f).None? then Err(KeyError(FieldName(f))) else Ok(Catalog(f).value.numerical)
  }

  function Categorical(f: Field): (r: Result<bool>)
    ensures r.Err? <==> Catalog(f).None?
  {
    if Catalog(f).None? then Err(KeyError(FieldName(f))) else Ok(Catalog(f).value.categorical)
  }

  function Temporal(f: Field): (r: Result<bool>)
    ensures r.Err? <==> Catalog(f).None?
  {
    if Catalog(f).None? then Err(KeyError(FieldName(f))) else Ok(Catalog(f).value.temporal)
  }

  /** A label equals the description exactly when the entry gives no label of its own. */
  lemma LabelFallsBack(f: Field)
    requires Catalog(f).Some?
    ensures Label(f).Ok? && Description(f).Ok?
    ensures Catalog(f).value.shortLabel.None? ==> Label(f) == Description(f)
    ensures Catalog(f).value.shortLabel.Some? ==> Label(f) == Ok(Catalog(f).value.shortLabel.value)
  {
  }

  /** The classification of every catalogued field: temporal fields are also
      categorical, and no field is both numerical and categorical. */
  lemma Classification(f: Field)
    requires f != Reactions
    ensures Temporal(f) == Ok(f in {Date, Hour, Day})
    ensures Categorical(f) == Ok(f in {Date, Hour, Day, Author, ChannelName})
    ensures Numerical(f) == Ok(f in {ReactionCount, WordCount, SceneEnd, Count})
  {
  }

  /** REACTIONS has no entry, so each catalog property fails on it. */
  lemma ReactionsUncatalogued()
    ensures Description(Reactions) == Err(KeyError("REACTIONS"))
    ensures Label(Reactions) == Err(KeyError("REACTIONS"))
    ensures Temporal(Reactions).Err? && Categorical(Reactions).Err? && Numerical(Reactions).Err?
  {
  }

  datatype GroupBy = GroupSum | GroupMean | GroupNunique

  function GroupByValue(g: GroupBy): string {
    match g
    case GroupSum => "sum"
    case GroupMean => "mean"
    case GroupNunique => "nunique"
  }

  /** `GroupBy.__call__`: the pandas reduction each member dispatches to. */
  function Reduction(g: GroupBy): (a: Grouping.Agg)
    ensures Grouping.AggName(a) == GroupByValue(g)
  {
    match g
    case GroupSum => Grouping.Sum
    case GroupMean => Grouping.Mean
    case GroupNunique => Grouping.Nunique
  }

  /** `description_prefix`, "" where the member lists none. */
  function DescriptionPrefix(g: GroupBy): (r: string)
    ensures g == GroupSum <==> r == ""
  {
    match g
    case GroupSum => ""
    case GroupMean => "Average "
    case GroupNunique => "Unique "
  }

  function LabelPrefix(g: GroupBy): (r: string)
    ensures r != ""
  {
    match g
    case GroupSum => "Number of "
    case GroupMean => "Avg. "
    case GroupNunique => "Unique "
  }

  datatype Plot = Bar | Scatter | Line

  datatype Filter = Min | Max | Equal

  /** `Filter.__call__` on one cell: both bounds are inclusive. Ordering
      values Python cannot compare is a TypeError; `==` never fails. */
  function Holds(filter: Filter, cell: Value, value: Value): (r: Result<bool>)
    ensures filter == Equal ==> r == Ok(PyEq(cell, value))
    ensures filter == Min ==> (r.Ok? <==> Comparable(value, cell)) && (r.Ok? ==> r.value == Leq(value, cell))
    ensures filter == Max ==> (r.Ok? <==> Comparable(cell, value)) && (r.Ok? ==> r.value == Leq(cell, value))
  {
    match filter
    case Min => LessEq(value, cell)
    case Max => LessEq(cell, value)
    case Equal => Ok(PyEq(cell, value))
  }

  /** MIN and MAX with the same bound keep exactly the cells EQUAL keeps,
      for numbers. */
  lemma BoundsMeetAtEqual(cell: Value, value: Value)
    requires IsNumeric(cell) && IsNumeric(value)
    ensures Holds(Min, cell, value).Ok? && Holds(Max, cell, value).Ok?
    ensures (Holds(Min, cell, value).value && Holds(Max, cell, value).value) <==> Holds(Equal, cell, value).value
  {
  }

  function Symbol(filter: Filter): string {
    match filter
    case Min => "\U{2265}"
    case Max => "\U{2264}"
    case Equal => "="
  }

  /** The three symbols are distinct single characters. */
  lemma SymbolsDistinct()
    ensures |Symbol(Min)| == 1 && |Symbol(Max)| == 1 && |Symbol(Equal)| == 1
    ensures Symbol(Min) != Symbol(Max) && Symbol(Max) != Symbol(Equal) && Symbol(Min) != Symbol(Equal)
  {
  }
}
