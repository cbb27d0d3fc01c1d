/** Which x/y field pairs make a meaningful line or bar chart, and which
    aggregation the y field then takes. Fields are classified by kind; a
    validator answers `False` for a pair it rejects and a (plot,
    aggregation) pair for one it accepts. */
module IsValidPlot {
  import opened Wrappers

  datatype Kind = Temporal | Ordinal | Numerical | Categorical

  /** The field kinds. "count" is the special number of items in a group. */
  const Fields: map<string, Kind> := map[
    "date" := Temporal,
    "hour" := Ordinal,
    "day" := Ordinal,
    "reaction_count" := Numerical,
    "word_count" := Numerical,
    "author" := Categorical,
    "count" := Numerical
  ]

  /** What a validator returns: `False`, a (plot, aggregation) tuple, or
      `None` when the function falls off its end. */
  datatype Verdict = Rejected | Accepted(plot: string, aggregation: string) | NoneValue

  /** Python truthiness of a verdict: only a tuple is truthy. */
  predicate Truthy(v: Verdict) {
    v.Accepted?
  }

  /** `fields[name]`. */
  function KindOf(name: string): (r: Result<Kind>)
    ensures r.Ok? <==> name in Fields
    ensures r.Ok? ==> r.value == Fields[name]
    ensures r.Err? ==> r.error == KeyError(name)
  {
    if name in Fields then Ok(Fields[name]) else Err(KeyError(name))
  }

  /** The aggregation a y field takes once the pair is accepted; `None`
      when the y field falls through every case. */
  function Aggregation(y: string, yKind: Kind): Option<string> {
    if y == "count" then Some("count")
    else if yKind == Numerical then Some("sum")
    else if yKind == Categorical then Some("nunique")
    else None
  }

  function Tag(plot: string, agg: Option<string>): Verdict {
    match agg
    case Some(a) => Accepted(plot, a)
    case None => Rejected
  }

  /** `is_valid_line`. Only y is looked up; x must be "date". */
  function IsValidLine(x: string, y: string): (r: Result<Verdict>)
    ensures r.Err? <==> y !in Fields
    ensures r.Ok? && Truthy(r.value) ==> x == "date" && x != y && r.value.plot == "line"
  {
    var yKind :- KindOf(y);
    if x == y then Ok(Rejected)
    else if x != "date" then Ok(Rejected)
    else if yKind == Ordinal then Ok(Rejected)
    else Ok(Tag("line", Aggregation(y, yKind)))
  }

  /** `is_valid_bar`. x is looked up before y. */
  function IsValidBar(x: string, y: string): (r: Result<Verdict>)
    ensures r.Err? <==> x !in Fields || y !in Fields
    ensures r.Ok? && Truthy(r.value) ==> x != y && y != "date" && r.value.plot == "bar"
  {
    var xKind :- KindOf(x);
    var yKind :- KindOf(y);
    if x == y then Ok(Rejected)
    else if !(x == "reaction_count" || xKind == Ordinal) then Ok(Rejected)
    else if yKind == Ordinal then Ok(Rejected)
    else Ok(Tag("bar", Aggregation(y, yKind)))
  }

  /** `is_valid_scatter`: unfinished; it rejects a grouping context outside
      its four fields and otherwise returns nothing. */
  function IsValidScatter(x: string, y: string, context: string): (r: Verdict)
    ensures r == Rejected <==> context !in ["author", "date", "word_count", "reaction_count"]
    ensures !Truthy(r)
  {
    if context !in ["author", "date", "word_count", "reaction_count"] then Rejected else NoneValue
  }

  // ---------------------------------------------------------------------
  // What the validators decide

  /** A line validator raises KeyError exactly when y is not a known field;
      x need not be one. */
  lemma LineLookup(x: string, y: string)
    ensures IsValidLine(x, y).Err? <==> y !in Fields
    ensures IsValidLine(x, y).Err? ==> IsValidLine(x, y).error == KeyError(y)
  {
  }

  /** A bar validator raises KeyError for the first of x, y that is not a
      known field. */
  lemma BarLookup(x: string, y: string)
    ensures IsValidBar(x, y).Err? <==> x !in Fields || y !in Fields
    ensures x !in Fields ==> IsValidBar(x, y) == Err(KeyError(x))
    ensures x in Fields && y !in Fields ==> IsValidBar(x, y) == Err(KeyError(y))
  {
  }

  /** A line is rejected exactly when the axes coincide, x is not the date,
      or y is ordinal. */
  lemma LineRejectedIff(x: string, y: string)
    requires y in Fields
    ensures IsValidLine(x, y) == Ok(Rejected) <==> x == y || x != "date" || Fields[y] == Ordinal
    ensures IsValidLine(x, y) != Ok(NoneValue)
  {
    if x == "date" && x != y && Fields[y] != Ordinal {
      assert y in Fields.Keys;
      assert Fields[y] != Temporal;
    }
  }

  /** An accepted line aggregates count as is, numericals by sum and
      categories by nunique. */
  lemma LineAggregation(x: string, y: string)
    requires IsValidLine(x, y).Ok? && IsValidLine(x, y).value.Accepted?
    ensures IsValidLine(x, y).value.plot == "line"
    ensures y == "count" ==> IsValidLine(x, y).value.aggregation == "count"
    ensures y != "count" && Fields[y] == Numerical ==> IsValidLine(x, y).value.aggregation == "sum"
    ensures Fields[y] == Categorical ==> IsValidLine(x, y).value.aggregation == "nunique"
  {
  }

  /** No accepted line puts the date on y: x has to be the date and the axes
      differ. */
  lemma NoLineOverDate(x: string)
    ensures !(IsValidLine(x, "date").Ok? && IsValidLine(x, "date").value.Accepted?)
  {
  }

  /** The accepted lines, listed: the date on x against any of the four
      aggregatable fields. */
  lemma ValidLines(x: string, y: string)
    ensures (IsValidLine(x, y).Ok? && Truthy(IsValidLine(x, y).value)) <==>
      x == "date" && y in ["reaction_count", "word_count", "author", "count"]
  {
    if x == "date" && y in Fields && x != y && Fields[y] != Ordinal {
      assert y in Fields.Keys;
    }
  }

  /** A bar is rejected exactly when the axes coincide, x is neither the
      reaction count nor ordinal, y is ordinal, or y is the date, which no
      aggregation case covers. */
  lemma BarRejectedIff(x: string, y: string)
    requires x in Fields && y in Fields
    ensures IsValidBar(x, y) == Ok(Rejected) <==>
      x == y || !(x == "reaction_count" || Fields[x] == Ordinal) || Fields[y] == Ordinal || Fields[y] == Temporal
    ensures IsValidBar(x, y) != Ok(NoneValue)
  {
    if Fields[y] == Temporal {
      assert y in Fields.Keys;
      assert y != "count";
    }
  }

  /** An accepted bar uses the same aggregation mapping, tagged "bar". */
  lemma BarAggregation(x: string, y: string)
    requires IsValidBar(x, y).Ok? && IsValidBar(x, y).value.Accepted?
    ensures IsValidBar(x, y).value.plot == "bar"
    ensures IsValidBar(x, y).value.aggregation == Aggregation(y, Fields[y]).value
    ensures y == "count" ==> IsValidBar(x, y).value.aggregation == "count"
    ensures y != "count" && Fields[y] == Numerical ==> IsValidBar(x, y).value.aggregation == "sum"
    ensures Fields[y] == Categorical ==> IsValidBar(x, y).value.aggregation == "nunique"
  {
  }

  /** The accepted bars, listed: an hour, a day or a reaction count on x
      against a different aggregatable field. */
  lemma ValidBars(x: string, y: string)
    ensures (IsValidBar(x, y).Ok? && Truthy(IsValidBar(x, y).value)) <==>
      x in ["hour", "day", "reaction_count"] && y in ["reaction_count", "word_count", "author", "count"] && x != y
  {
    if x in Fields && y in Fields {
      assert x in Fields.Keys && y in Fields.Keys;
    }
  }

  /** Line and bar agree on the aggregation wherever both accept. */
  lemma SameAggregation(xLine: string, xBar: string, y: string)
    requires IsValidLine(xLine, y).Ok? && IsValidLine(xLine, y).value.Accepted?
    requires IsValidBar(xBar, y).Ok? && IsValidBar(xBar, y).value.Accepted?
    ensures IsValidLine(xLine, y).value.aggregation == IsValidBar(xBar, y).value.aggregation
  {
  }
}
