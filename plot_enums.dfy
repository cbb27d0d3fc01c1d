/** The members of the plot package's field and aggregation enums that its
    transformer and metadata use. The enum file itself
    (src/plot/enums.py) is not part of this model: its members are taken
    from the members the package names, with values in the snake-case
    convention of the other generations' catalogs, and every member is a
    string whose text is its value. */
module PlotEnums {
  import Grouping

  datatype Field =
    | Author | AuthorId | Date | Hour | Day | Content | Attachments | Reactions
    | ReactionCount | WordCount | ChannelName | SceneId | Count

  /** The member's value: its column name, and what `str` gives. */
  function FieldValue(f: Field): string {
    match f
    case Author => "author"
    case AuthorId => "author_id"
    case Date => "date"
    case Hour => "hour"
    case Day => "day"
    case Content => "content"
    case Attachments => "attachments"
    case Reactions => "reactions"
    case ReactionCount => "reaction_count"
    case WordCount => "word_count"
    case ChannelName => "channel_name"
    case SceneId => "scene_id"
    case Count => "count"
  }

  /** Distinct members are distinct columns. */
  lemma FieldValueInjective(f: Field, g: Field)
    ensures FieldValue(f) == FieldValue(g) <==> f == g
  {
  }

  /** An aggregation is called on a grouped table and logged by its value. */
  datatype GroupBy = Sum | Mean | Nunique

  function Reduction(g: GroupBy): (r: Grouping.Agg)
    ensures Grouping.AggName(r) == GroupByValue(g)
  {
    match g
    case Sum => Grouping.Sum
    case Mean => Grouping.Mean
    case Nunique => Grouping.Nunique
  }

  function GroupByValue(g: GroupBy): string {
    match g
    case Sum => "sum"
    case Mean => "mean"
    case Nunique => "nunique"
  }

  /** The chart kinds a plot transformer can be asked for. */
  datatype Plot = Bar | Line | Scatter
}
