/** The backend's side table of plot labels. Aggregations and cumulative
    columns store an overriding description and label per column name;
    filters append a readable clause. Only this table produces axis labels
    and the chart title. */
module BackendMetadata {
  import opened Wrappers
  import opened Values
  import opened Dicts
  import opened BackendEnums

  /** A stored entry. `add_group_by` can leave an empty one behind, so both
      keys are optional. */
  datatype Stored = Stored(description: Option<string>, shortLabel: Option<string>)

  datatype MetaState = MetaState(store: map<string, Stored>, filters: seq<string>)

  const Fresh: MetaState := MetaState(map[], [])

  datatype MetaStep = MetaStep(state: MetaState, outcome: Outcome)

  /** `add_group_by`: an empty entry is created first; the prefixes are then
      applied to the catalog's text, never to what is already stored. */
  function AfterGroupBy(m: MetaState, f: Field, g: GroupBy): (r: MetaStep)
    ensures r.state.filters == m.filters
    ensures r.outcome.Pass? <==> f != Reactions
    ensures FieldValue(f) in r.state.store
    ensures forall k :: k in m.store && k != FieldValue(f) ==> k in r.state.store && r.state.store[k] == m.store[k]
    ensures r.state.store.Keys == m.store.Keys + {FieldValue(f)}
  {
    var key := FieldValue(f);
    var seeded := if key in m.store then m.store else m.store[key := Stored(None, None)];
    match Description(f)
    case Err(e) => MetaStep(MetaState(seeded, m.filters), Fail(e))
    case Ok(d) =>
      MetaStep(MetaState(seeded[key := Stored(Some(DescriptionPrefix(g) + d), Some(LabelPrefix(g) + Label(f).value))], m.filters), Pass)
  }

  /** The two outcomes of `add_group_by`, on the store with the entry
      created. */
  lemma AfterGroupByCases(m: MetaState, f: Field, g: GroupBy, seeded: map<string, Stored>)
    requires seeded == if FieldValue(f) in m.store then m.store else m.store[FieldValue(f) := Stored(None, None)]
    ensures Description(f).Err? ==> AfterGroupBy(m, f, g) == MetaStep(MetaState(seeded, m.filters), Fail(Description(f).error))
    ensures Description(f).Ok? ==> Label(f).Ok?
    ensures Description(f).Ok? ==>
      AfterGroupBy(m, f, g) == MetaStep(MetaState(seeded[FieldValue(f) := Stored(
        Some(DescriptionPrefix(g) + Description(f).value), Some(LabelPrefix(g) + Label(f).value))], m.filters), Pass)
  {
  }

  /** Setting an entry's description and then its label replaces the entry. */
  lemma SetBoth(st: map<string, Stored>, k: string, d: Option<string>, l: Option<string>)
    requires k in st
    ensures var once := st[k := st[k].(description := d)];
      once[k := once[k].(shortLabel := l)] == st[k := Stored(d, l)]
  {
  }

  /** `field.label`, ' ', the symbol, ' ', `str(value)`. */
  function Clause(filter: Filter, f: Field, value: Value): (r: Result<string>)
    ensures r.Ok? <==> f != Reactions
  {
    var l :- Label(f);
    Ok(l + " " + Symbol(filter) + " " + Show(value))
  }

  /** `add_filter`: one clause appended after all earlier ones. */
  function AfterFilter(m: MetaState, filter: Filter, f: Field, value: Value): (r: MetaStep)
    ensures r.state.store == m.store
    ensures r.outcome.Pass? <==> f != Reactions
    ensures r.outcome.Pass? ==> r.state.filters == m.filters + [Clause(filter, f, value).value]
    ensures r.outcome.Fail? ==> r.state.filters == m.filters
  {
    match Clause(filter, f, value)
    case Err(e) => MetaStep(m, Fail(e))
    case Ok(c) => MetaStep(m.(filters := m.filters + [c]), Pass)
  }

  /** `add_cumulative`: a new entry under the result name; the source field's
      own entry is untouched. */
  function AfterCumulative(m: MetaState, f: Field, result: string): (r: MetaStep)
    ensures r.state.filters == m.filters
    ensures r.outcome.Pass? <==> f != Reactions
    ensures r.outcome.Fail? ==> r.state == m
    ensures forall k :: k in m.store && k != result ==> k in r.state.store && r.state.store[k] == m.store[k]
  {
    match Description(f)
    case Err(e) => MetaStep(m, Fail(e))
    case Ok(d) =>
      var l := Label(f).value;
      MetaStep(m.(store := m.store[result := Stored(Some("Cumulative " + d), Some("Number of " + l))]), Pass)
  }

  /** `get_filters_description`. */
  function FiltersDescription(m: MetaState): (r: string)
    ensures r == "" <==> m.filters == []
    ensures r != "" ==> r[0] == '(' && r[|r| - 1] == ')'
  {
    if m.filters == [] then "" else "(" + Join(", ", m.filters) + ")"
  }

  /** `get_field_metadata`: the stored entry, else the catalog's text for a
      field name; any other name is rejected by `Field(...)`. */
  function FieldMetadata(m: MetaState, name: string): (r: Result<Stored>)
    ensures name in m.store ==> r == Ok(m.store[name])
    ensures name !in m.store && FieldOf(name).Err? ==> r.Err? && r.error.ValueError?
    ensures name !in m.store && FieldOf(name).Ok? ==>
      (r.Ok? <==> FieldOf(name).value != Reactions)
  {
    if name in m.store then Ok(m.store[name])
    else
      var f :- FieldOf(name);
      var d :- Description(f);
      Ok(Stored(Some(d), Some(Label(f).value)))
  }

  /** `entry["description"]` / `entry["label"]` on a stored dict. */
  function Item(o: Option<string>, key: string): (r: Result<string>)
    ensures r.Ok? <==> o.Some?
    ensures r.Ok? ==> r.value == o.value
  {
    if o.Some? then Ok(o.value) else Err(KeyError(key))
  }

  datatype PlotLabels = PlotLabels(labels: Dict<string, string>, title: string)

  /** `generate_plot_labels`: title "<y description> by <x description> <filters>",
      labels mapping each axis column to its label. */
  function GeneratePlotLabels(m: MetaState, x: string, y: string): (r: Result<PlotLabels>)
    ensures FieldMetadata(m, x).Err? ==> r == Err(FieldMetadata(m, x).error)
    ensures r.Ok? <==> (FieldMetadata(m, x).Ok? && FieldMetadata(m, y).Ok? &&
      FieldMetadata(m, x).value.description.Some? && FieldMetadata(m, x).value.shortLabel.Some? &&
      FieldMetadata(m, y).value.description.Some? && FieldMetadata(m, y).value.shortLabel.Some?)
  {
    var xm :- FieldMetadata(m, x);
    var ym :- FieldMetadata(m, y);
    var filters := FiltersDescription(m);
    var yd :- Item(ym.description, "description");
    var xd :- Item(xm.description, "description");
    var xl :- Item(xm.shortLabel, "label");
    var yl :- Item(ym.shortLabel, "label");
    Ok(PlotLabels(Put(Put([], x, xl), y, yl), yd + " by " + xd + " " + filters))
  }

  /** The title and labels follow the stored text or the catalog's. */
  lemma PlotLabelsSpec(m: MetaState, x: string, y: string)
    requires FieldMetadata(m, x).Ok? && FieldMetadata(m, y).Ok?
    requires FieldMetadata(m, x).value.description.Some? && FieldMetadata(m, x).value.shortLabel.Some?
    requires FieldMetadata(m, y).value.description.Some? && FieldMetadata(m, y).value.shortLabel.Some?
    ensures GeneratePlotLabels(m, x, y).Ok?
    ensures GeneratePlotLabels(m, x, y).value.title ==
      FieldMetadata(m, y).value.description.value + " by " + FieldMetadata(m, x).value.description.value
      + " " + FiltersDescription(m)
    ensures Get(GeneratePlotLabels(m, x, y).value.labels, x) ==
      Some(if x == y then FieldMetadata(m, y).value.shortLabel.value else FieldMetadata(m, x).value.shortLabel.value)
    ensures Get(GeneratePlotLabels(m, x, y).value.labels, y) == Some(FieldMetadata(m, y).value.shortLabel.value)
  {
    var xl := FieldMetadata(m, x).value.shortLabel.value;
    var yl := FieldMetadata(m, y).value.shortLabel.value;
    PutGet([], x, xl, x);
    PutGet([], x, xl, y);
    PutGet(Put([], x, xl), y, yl, x);
    PutGet(Put([], x, xl), y, yl, y);
  }

  /** A title built with no filters ends in the separating space. */
  lemma UnfilteredTitleTrailingSpace(m: MetaState, x: string, y: string)
    requires m.filters == [] && GeneratePlotLabels(m, x, y).Ok?
    ensures var t := GeneratePlotLabels(m, x, y).value.title; |t| > 0 && t[|t| - 1] == ' '
  {
  }

  /** Grouping again by the same aggregation changes nothing. */
  lemma GroupByIdempotent(m: MetaState, f: Field, g: GroupBy)
    ensures AfterGroupBy(AfterGroupBy(m, f, g).state, f, g) == AfterGroupBy(m, f, g)
  {
  }

  /** Prefixes do not compound: a second aggregation replaces the first. */
  lemma GroupByLastWins(m: MetaState, f: Field, g1: GroupBy, g2: GroupBy)
    ensures AfterGroupBy(AfterGroupBy(m, f, g1).state, f, g2) == AfterGroupBy(m, f, g2)
  {
  }

  /** After a successful aggregation, the field's metadata is the catalog's
      description and label behind the aggregation's prefixes. */
  lemma GroupByMetadata(m: MetaState, f: Field, g: GroupBy)
    requires f != Reactions
    ensures FieldMetadata(AfterGroupBy(m, f, g).state, FieldValue(f)) ==
      Ok(Stored(Some(DescriptionPrefix(g) + Description(f).value), Some(LabelPrefix(g) + Label(f).value)))
  {
  }

  /** Without overrides, a field's metadata is its catalog text. */
  lemma CatalogMetadata(f: Field)
    requires f != Reactions
    ensures FieldMetadata(Fresh, FieldValue(f)) == Ok(Stored(Some(Description(f).value), Some(Label(f).value)))
  {
    FieldOfValue(f);
  }

  /** A failed aggregation on REACTIONS still leaves an empty entry, and the
      labels for that column then fail on the missing description. */
  lemma FailedGroupByLeavesEmptyEntry(m: MetaState, x: string)
    requires FieldValue(Reactions) !in m.store
    ensures AfterGroupBy(m, Reactions, GroupSum).state.store[FieldValue(Reactions)] == Stored(None, None)
    ensures FieldMetadata(AfterGroupBy(m, Reactions, GroupSum).state, x).Ok? ==>
      GeneratePlotLabels(AfterGroupBy(m, Reactions, GroupSum).state, x, "reactions") == Err(KeyError("description"))
  {
  }

  /** A cumulative entry reads "Cumulative <description>" / "Number of <label>". */
  lemma CumulativeMetadata(m: MetaState, f: Field, result: string)
    requires f != Reactions
    ensures FieldMetadata(AfterCumulative(m, f, result).state, result) ==
      Ok(Stored(Some("Cumulative " + Description(f).value), Some("Number of " + Label(f).value)))
  {
  }

  /** Filter clauses are described in the order they were added. */
  lemma FiltersInCallOrder(m: MetaState, a: Filter, fa: Field, va: Value, b: Filter, fb: Field, vb: Value)
    requires m.filters == [] && fa != Reactions && fb != Reactions
    ensures FiltersDescription(AfterFilter(AfterFilter(m, a, fa, va).state, b, fb, vb).state) ==
      "(" + Clause(a, fa, va).value + ", " + Clause(b, fb, vb).value + ")"
  {
    var c1 := Clause(a, fa, va).value;
    var c2 := Clause(b, fb, vb).value;
    var s := AfterFilter(AfterFilter(m, a, fa, va).state, b, fb, vb).state;
    var s1 := AfterFilter(m, a, fa, va);
    assert s1.state.filters == [c1];
    var s2 := AfterFilter(s1.state, b, fb, vb);
    assert s2.state.filters == [c1, c2];
    DescribeTwo(s2.state, c1, c2);
  }

  lemma DescribeTwo(m: MetaState, p: string, q: string)
    requires m.filters == [p, q]
    ensures FiltersDescription(m) == "(" + p + ", " + q + ")"
  {
    JoinTwo(", ", p, q);
  }

  /** The metadata object a transformer holds. */
  class Metadata {
    var store: map<string, Stored>
    var filters: seq<string>

    function State(): MetaState
      reads this
    {
      MetaState(store, filters)
    }

    constructor()
      ensures State() == Fresh
    {
      store := map[];
      filters := [];
    }

    method AddGroupBy(f: Field, g: GroupBy) returns (o: Outcome)
      modifies this
      ensures MetaStep(State(), o) == AfterGroupBy(old(State()), f, g)
    {
      ghost var m0 := State();
      var key := FieldValue(f);
      if key !in store {
        store := store[key := Stored(None, None)];
      }
      ghost var seeded := store;
      AfterGroupByCases(m0, f, g, seeded);
      var d := Description(f);
      if d.Err? {
        return Fail(d.error);
      }
      store := store[key := store[key].(description := Some(DescriptionPrefix(g) + d.value))];
      var l := Label(f);
      store := store[key := store[key].(shortLabel := Some(LabelPrefix(g) + l.value))];
      SetBoth(seeded, key, Some(DescriptionPrefix(g) + d.value), Some(LabelPrefix(g) + l.value));
      return Pass;
    }

    method AddFilter(filter: Filter, f: Field, value: Value) returns (o: Outcome)
      modifies this
      ensures MetaStep(State(), o) == AfterFilter(old(State()), filter, f, value)
    {
      var c := Clause(filter, f, value);
      if c.Err? {
        return Fail(c.error);
      }
      filters := filters + [c.value];
      return Pass;
    }

    method AddCumulative(f: Field, result: string) returns (o: Outcome)
      modifies this
      ensures MetaStep(State(), o) == AfterCumulative(old(State()), f, result)
    {
      var d := Description(f);
      if d.Err? {
        return Fail(d.error);
      }
      var l := Label(f);
      store := store[result := Stored(Some("Cumulative " + d.value), Some("Number of " + l.value))];
      return Pass;
    }
  }
}
