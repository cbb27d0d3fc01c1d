/** The plot package's metadata: a description and an optional short label
    per field, prefix pairs per aggregation, and the axis labels and title
    derived from them. Grouping a field rewrites its entry with the
    aggregation's prefixes in front of whatever the entry said before. */
module PlotMetadata {
  import opened Wrappers
  import opened Dicts
  import opened PlotEnums

  /** A field's entry; `None` is a key the entry does not have. */
  datatype Entry = Entry(description: Option<string>, shortLabel: Option<string>)

  /** Entries by field value. */
  type Store = map<string, Entry>

  /** A member's initial entry. */
  function CatalogEntry(f: Field): (r: Entry)
    ensures r.description.Some?
  {
    match f
    case Author => Entry(Some("Author"), None)
    case AuthorId => Entry(Some("Users"), None)
    case Date => Entry(Some("Day"), Some("Date"))
    case Hour => Entry(Some("Hour of Day"), None)
    case Day => Entry(Some("Day of Month"), None)
    case Content => Entry(Some("Messages"), Some("Number of Messages"))
    case Attachments => Entry(Some("Attachments"), None)
    case Reactions => Entry(Some("Reactions"), None)
    case ReactionCount => Entry(Some("Number of Reactions"), Some("Reactions"))
    case WordCount => Entry(Some("Word Count"), Some("Words"))
    case ChannelName => Entry(Some("Channels"), None)
    case SceneId => Entry(Some("Scenes"), None)
    case Count => Entry(Some("Messages"), Some("Number of Messages"))
  }

  /** The initial field entries: every member, under its value. */
  function Catalog(): (r: Store)
    ensures forall f: Field :: FieldValue(f) in r && r[FieldValue(f)] == CatalogEntry(f)
  {
    map[
      FieldValue(Author) := CatalogEntry(Author),
      FieldValue(AuthorId) := CatalogEntry(AuthorId),
      FieldValue(Date) := CatalogEntry(Date),
      FieldValue(Hour) := CatalogEntry(Hour),
      FieldValue(Day) := CatalogEntry(Day),
      FieldValue(Content) := CatalogEntry(Content),
      FieldValue(Attachments) := CatalogEntry(Attachments),
      FieldValue(Reactions) := CatalogEntry(Reactions),
      FieldValue(ReactionCount) := CatalogEntry(ReactionCount),
      FieldValue(WordCount) := CatalogEntry(WordCount),
      FieldValue(ChannelName) := CatalogEntry(ChannelName),
      FieldValue(SceneId) := CatalogEntry(SceneId),
      FieldValue(Count) := CatalogEntry(Count)
    ]
  }

  /** The aggregation prefixes, as an entry of the same shape. */
  function Prefixes(g: GroupBy): Entry {
    match g
    case Sum => Entry(None, Some("Number of "))
    case Mean => Entry(Some("Average "), Some("Avg. "))
    case Nunique => Entry(Some("Number of Unique "), Some("Unique "))
  }

  /** `get_aggregation_description`: a missing prefix is "". */
  function AggregationDescription(g: GroupBy): (r: string)
    ensures r == "" <==> Prefixes(g).description.None?
  {
    match Prefixes(g).description
    case Some(p) => p
    case None => ""
  }

  /** `get_aggregation_label`. */
  function AggregationLabel(g: GroupBy): (r: string)
    ensures r == "" <==> Prefixes(g).shortLabel.None?
  {
    match Prefixes(g).shortLabel
    case Some(p) => p
    case None => ""
  }

  /** The three prefix pairs; SUM has no description prefix. */
  lemma PrefixTable()
    ensures AggregationDescription(Sum) == "" && AggregationLabel(Sum) == "Number of "
    ensures AggregationDescription(Mean) == "Average " && AggregationLabel(Mean) == "Avg. "
    ensures AggregationDescription(Nunique) == "Number of Unique " && AggregationLabel(Nunique) == "Unique "
    ensures forall g :: AggregationLabel(g) != ""
  {
  }

  /** `get_field_description`: the stored description, or the field's own
      text. */
  function Description(store: Store, name: string): (r: string)
    ensures r == name || (name in store && store[name].description == Some(r))
  {
    if name in store && store[name].description.Some? then store[name].description.value else name
  }

  /** `get_field_label`: the stored label, or the description. */
  function Label(store: Store, name: string): (r: string)
    ensures r == Description(store, name) || (name in store && store[name].shortLabel == Some(r))
  {
    if name in store && store[name].shortLabel.Some? then store[name].shortLabel.value else Description(store, name)
  }

  /** A field without an entry is described and labelled by its own text;
      a field without a stored label is labelled by its description. */
  lemma Fallbacks(store: Store, name: string)
    ensures name !in store ==> Description(store, name) == name && Label(store, name) == name
    ensures (name !in store || store[name].shortLabel.None?) ==> Label(store, name) == Description(store, name)
    ensures name in store && store[name].description.Some? ==> Description(store, name) == store[name].description.value
  {
  }

  /** `set_group_by`: the field's entry becomes the aggregation's prefixes in
      front of its current description and label. */
  function AfterGroupBy(store: Store, name: string, g: GroupBy): (r: Store)
    ensures r.Keys == store.Keys + {name}
    ensures forall k :: k in store && k != name ==> r[k] == store[k]
  {
    store[name := Entry(Some(AggregationDescription(g) + Description(store, name)),
                        Some(AggregationLabel(g) + Label(store, name)))]
  }

  /** After `set_group_by` the field is described and labelled by the
      prefixed texts, and no other field's description or label changes. */
  lemma AfterGroupBySpec(store: Store, name: string, g: GroupBy, other: string)
    ensures Description(AfterGroupBy(store, name, g), name) == AggregationDescription(g) + Description(store, name)
    ensures Label(AfterGroupBy(store, name, g), name) == AggregationLabel(g) + Label(store, name)
    ensures other != name ==>
      Description(AfterGroupBy(store, name, g), other) == Description(store, other) &&
      Label(AfterGroupBy(store, name, g), other) == Label(store, other)
  {
  }

  /** Repeated calls compose: the later prefix goes in front of the earlier. */
  lemma GroupByComposes(store: Store, name: string, g1: GroupBy, g2: GroupBy)
    ensures var twice := AfterGroupBy(AfterGroupBy(store, name, g1), name, g2);
      Description(twice, name) == AggregationDescription(g2) + AggregationDescription(g1) + Description(store, name) &&
      Label(twice, name) == AggregationLabel(g2) + AggregationLabel(g1) + Label(store, name)
  {
    var once := AfterGroupBy(store, name, g1);
    AfterGroupBySpec(store, name, g1, name);
    AfterGroupBySpec(once, name, g2, name);
    var twice := AfterGroupBy(once, name, g2);
    var d, l := Description(store, name), Label(store, name);
    Associative(AggregationDescription(g2), AggregationDescription(g1), d);
    Associative(AggregationLabel(g2), AggregationLabel(g1), l);
  }

  lemma Associative(a: string, b: string, c: string)
    ensures a + b + c == a + (b + c)
  {
  }

  /** So `set_group_by` is not idempotent: every aggregation has a label
      prefix, which a second call doubles. */
  lemma GroupByNotIdempotent(store: Store, name: string, g: GroupBy)
    ensures AfterGroupBy(AfterGroupBy(store, name, g), name, g) != AfterGroupBy(store, name, g)
  {
    GroupByComposes(store, name, g, g);
    AfterGroupBySpec(store, name, g, name);
    var once := Label(AfterGroupBy(store, name, g), name);
    var twice := Label(AfterGroupBy(AfterGroupBy(store, name, g), name, g), name);
    assert |twice| == |AggregationLabel(g)| + |once|;
  }

  /** The axis labels by field and the title. */
  datatype PlotLabels = PlotLabels(labels: Dict<string, string>, title: string)

  /** `generate_plot_labels(x, y)`: the title "<y description> by <x
      description>", and each axis field's label; the same field on both
      axes gives one entry. */
  function PlotLabelsFor(store: Store, x: string, y: string): (r: PlotLabels)
    ensures r.title == Description(store, y) + " by " + Description(store, x)
    ensures Get(r.labels, y) == Some(Label(store, y))
    ensures x != y ==> Get(r.labels, x) == Some(Label(store, x))
    ensures Keys(r.labels) == if x == y then [x] else [x, y]
  {
    var labels := Put([(x, Label(store, x))], y, Label(store, y));
    PutGet([(x, Label(store, x))], y, Label(store, y), x);
    PutGet([(x, Label(store, x))], y, Label(store, y), y);
    PutKeys([(x, Label(store, x))], y, Label(store, y));
    PlotLabels(labels, Description(store, y) + " by " + Description(store, x))
  }

  /** With the initial entries, the title and labels come from the two
      members' catalog entries. */
  lemma CatalogLabels(x: Field, y: Field)
    ensures PlotLabelsFor(Catalog(), FieldValue(x), FieldValue(y)).title ==
      CatalogEntry(y).description.value + " by " + CatalogEntry(x).description.value
    ensures Get(PlotLabelsFor(Catalog(), FieldValue(x), FieldValue(y)).labels, FieldValue(y)) ==
      Some(if CatalogEntry(y).shortLabel.Some? then CatalogEntry(y).shortLabel.value else CatalogEntry(y).description.value)
  {
  }

  /** Summing word counts per author keeps the description and prefixes the
      label. */
  lemma SummedWords()
    ensures Description(AfterGroupBy(Catalog(), "word_count", Sum), "word_count") == "Word Count"
    ensures Label(AfterGroupBy(Catalog(), "word_count", Sum), "word_count") == "Number of Words"
  {
    assert FieldValue(WordCount) == "word_count";
    SummedField(Catalog(), "word_count", "Word Count", "Words");
    NumberOfWords();
  }

  /** Summing keeps a described field's description and puts "Number of "
      before its label. */
  lemma SummedField(store: Store, name: string, d: string, l: string)
    requires name in store && store[name] == Entry(Some(d), Some(l))
    ensures Description(AfterGroupBy(store, name, Sum), name) == d
    ensures Label(AfterGroupBy(store, name, Sum), name) == "Number of " + l
  {
    AfterGroupBySpec(store, name, Sum, name);
    PrependEmpty(d);
  }

  // A proof step: the catalog text of the word count, compared once.
  lemma NumberOfWords()
    ensures "Number of " + "Words" == "Number of Words"
  {
  }

  // A proof step: prefixing the empty string changes nothing.
  lemma PrependEmpty(s: string)
    ensures "" + s == s
  {
  }

  class Metadata {
    var fieldMetadata: Store

    /** Starts from the catalog. */
    constructor()
      ensures fieldMetadata == Catalog()
    {
      fieldMetadata := Catalog();
    }

    method SetGroupBy(name: string, g: GroupBy)
      modifies this
      ensures fieldMetadata == AfterGroupBy(old(fieldMetadata), name, g)
    {
      var description := AggregationDescription(g) + Description(fieldMetadata, name);
      var shortLabel := AggregationLabel(g) + Label(fieldMetadata, name);
      fieldMetadata := fieldMetadata[name := Entry(Some(description), Some(shortLabel))];
    }

    function GeneratePlotLabels(x: string, y: string): (r: PlotLabels)
      reads this
      ensures r.title == Description(fieldMetadata, y) + " by " + Description(fieldMetadata, x)
      ensures Get(r.labels, y) == Some(Label(fieldMetadata, y))
    {
      PlotLabelsFor(fieldMetadata, x, y)
    }
  }
}
