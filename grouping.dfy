/** Reductions the modelled code asks pandas for: `groupby(...).agg(...)`,
    `value_counts()` and `cumsum()`. */
module Grouping {
  import opened Wrappers
  import opened Values
  import opened Sorting
  import opened Dicts
  import opened Tables

  /** The aggregation names the generations pass to pandas. */
  datatype Agg = Sum | Mean | Nunique | Count

  /** The name pandas knows the aggregation by. */
  function AggName(a: Agg): string {
    match a
    case Sum => "sum"
    case Mean => "mean"
    case Nunique => "nunique"
    case Count => "count"
  }

  /** Dicts and lists cannot be group keys or be counted. */
  predicate Hashable(v: Value) { !v.VReactions? && !v.VList? }

  predicate AllHashable(vals: seq<Value>) { forall k :: 0 <= k < |vals| ==> Hashable(vals[k]) }

  /** The distinct values in order of first occurrence (`pd.unique`). */
  function Uniq(vals: seq<Value>): (r: seq<Value>)
    ensures Distinct(r)
    ensures forall v :: v in r <==> v in vals
    ensures |r| <= |vals|
    decreases |vals|
  {
    if |vals| == 0 then []
    else
      var u := Uniq(vals[..|vals| - 1]);
      assert vals == vals[..|vals| - 1] + [vals[|vals| - 1]];
      if vals[|vals| - 1] in u then u else u + [vals[|vals| - 1]]
  }

  /** How often `v` occurs in `vals`. */
  function Occurrences(vals: seq<Value>, v: Value): (n: nat)
    ensures n == multiset(vals)[v]
    decreases |vals|
  {
    if |vals| == 0 then 0
    else
      assert vals == vals[..|vals| - 1] + [vals[|vals| - 1]];
      Occurrences(vals[..|vals| - 1], v) + (if vals[|vals| - 1] == v then 1 else 0)
  }

  predicate AllNumeric(vals: seq<Value>) { forall k :: 0 <= k < |vals| ==> IsNumeric(vals[k]) }

  predicate AllInts(vals: seq<Value>) { forall k :: 0 <= k < |vals| ==> vals[k].VInt? }

  predicate AllStrs(vals: seq<Value>) { forall k :: 0 <= k < |vals| ==> vals[k].VStr? }

  function Total(vals: seq<Value>): real
    requires AllNumeric(vals)
    decreases |vals|
  {
    if |vals| == 0 then 0.0 else Total(vals[..|vals| - 1]) + Num(vals[|vals| - 1])
  }

  function IntTotal(vals: seq<Value>): (r: int)
    requires AllInts(vals)
    ensures r as real == Total(vals)
    decreases |vals|
  {
    if |vals| == 0 then 0 else IntTotal(vals[..|vals| - 1]) + vals[|vals| - 1].i
  }

  function Concat(vals: seq<Value>): string
    requires AllStrs(vals)
    decreases |vals|
  {
    if |vals| == 0 then "" else Concat(vals[..|vals| - 1]) + vals[|vals| - 1].s
  }

  /** The sum of numbers keeps integers integral. */
  function NumberSum(vals: seq<Value>): (r: Value)
    requires AllNumeric(vals)
    ensures IsNumeric(r) && Num(r) == Total(vals)
    ensures r.VInt? <==> AllInts(vals)
  {
    if AllInts(vals) then VInt(IntTotal(vals)) else VFloat(Total(vals))
  }

  /** One aggregation over the cells of one group. Object columns concatenate
      under `sum`; any other mix of kinds is a TypeError. */
  function Aggregate(a: Agg, vals: seq<Value>): (r: Result<Value>)
    requires |vals| > 0
    ensures a == Count ==> r == Ok(VInt(|vals|))
    ensures a == Mean ==> (r.Ok? <==> AllNumeric(vals))
    ensures a == Mean && r.Ok? ==> r.value == VFloat(Total(vals) / (|vals| as real))
    ensures a == Nunique ==> (r.Ok? <==> AllHashable(vals))
    ensures a == Nunique && r.Ok? ==> r.value == VInt(|Uniq(vals)|) && 1 <= r.value.i <= |vals|
    ensures a == Sum ==> (r.Ok? <==> AllNumeric(vals) || AllStrs(vals))
    ensures a == Sum && r.Ok? && AllNumeric(vals) ==> IsNumeric(r.value) && Num(r.value) == Total(vals)
    ensures r.Err? ==> r.error == TypeError
  {
    match a
    case Count => Ok(VInt(|vals|))
    case Mean => if AllNumeric(vals) then Ok(VFloat(Total(vals) / (|vals| as real))) else Err(TypeError)
    case Nunique =>
      if AllHashable(vals) then
        assert vals[0] in Uniq(vals);
        Ok(VInt(|Uniq(vals)|))
      else Err(TypeError)
    case Sum =>
      if AllNumeric(vals) then Ok(NumberSum(vals))
      else if AllStrs(vals) then Ok(VStr(Concat(vals)))
      else Err(TypeError)
  }

  /** The group keys in the order `groupby(sort=True)` emits them. */
  function GroupKeys(vals: seq<Value>): (r: seq<Value>)
    ensures Distinct(r)
    ensures SortedBy(r, (v: Value) => v, true)
    ensures forall v :: v in r <==> v in vals
    ensures |r| <= |vals|
  {
    var key := (v: Value) => v;
    SortBySorted(Uniq(vals), key, true);
    SortByPermutation(Uniq(vals), key, true);
    SortByDistinct(Uniq(vals), key, true);
    assert forall v :: v in SortBy(Uniq(vals), key, true) <==> v in multiset(Uniq(vals));
    SortBy(Uniq(vals), key, true)
  }

  /** The rows whose key cell is `k`, in table order. */
  function Group(rows: seq<Row>, key: string, k: Value): (r: seq<Row>)
    ensures forall j :: 0 <= j < |r| ==> Cell(r[j], key) == k && r[j] in rows
  {
    Where(rows, (row: Row) => Cell(row, key) == k)
  }

  lemma GroupNonEmpty(rows: seq<Row>, key: string, k: Value)
    requires k in ColumnOf(rows, key)
    ensures |Group(rows, key, k)| > 0
  {
    var m :| 0 <= m < |rows| && ColumnOf(rows, key)[m] == k;
    WhereKeeps(rows, (row: Row) => Cell(row, key) == k, rows[m]);
  }

  /** Every aggregation succeeds on every group. */
  predicate AggregatesOk(rows: seq<Row>, key: string, keys: seq<Value>, aggs: Dict<string, Agg>)
    requires forall i :: 0 <= i < |keys| ==> |Group(rows, key, keys[i])| > 0
  {
    forall i, j :: 0 <= i < |keys| && 0 <= j < |aggs| ==>
      Aggregate(aggs[j].1, ColumnOf(Group(rows, key, keys[i]), aggs[j].0)).Ok?
  }

  function GroupRow(rows: seq<Row>, key: string, k: Value, aggs: Dict<string, Agg>): (r: Row)
    requires |Group(rows, key, k)| > 0
    requires forall j :: 0 <= j < |aggs| ==> Aggregate(aggs[j].1, ColumnOf(Group(rows, key, k), aggs[j].0)).Ok?
    requires DistinctKeys(aggs)
    ensures r.Keys == ColumnSet([key] + Keys(aggs))
  {
    var g := Group(rows, key, k);
    map c | c in ColumnSet([key] + Keys(aggs)) ::
      if c == key then k
      else
        var j := IndexOfKey(aggs, c);
        Aggregate(aggs[j].1, ColumnOf(g, c)).value
  }

  function IndexOfKey(d: Dict<string, Agg>, c: string): (j: nat)
    requires c in Keys(d)
    ensures j < |d| && d[j].0 == c
    decreases |d|
  {
    if d[0].0 == c then 0
    else
      assert c in Keys(d[1..]) by { var m :| 0 <= m < |d| && Keys(d)[m] == c; assert Keys(d[1..])[m - 1] == c; }
      IndexOfKey(d[1..], c) + 1
  }

  /** `df.groupby(key)[others].agg(aggs).reset_index()`: one row per distinct
      key in ascending key order, holding the key and each aggregated column.
      Naming a column that is not among `others` is a KeyError. */
  function GroupBy(t: Table, key: string, aggs: Dict<string, Agg>): (r: Result<Table>)
    requires DistinctKeys(aggs)
    ensures key !in t.columns ==> r == Err(KeyError(key))
    ensures r.Ok? ==> key in t.columns && !(key in Keys(aggs))
    ensures r.Ok? ==> forall c :: c in Keys(aggs) ==> c in t.columns
    ensures r.Ok? ==> AllHashable(Column(t, key)) && Orderable(Column(t, key))
    ensures r.Ok? ==> r.value.columns == [key] + Keys(aggs)
    ensures r.Ok? ==> ColumnOf(r.value.rows, key) == GroupKeys(Column(t, key))
  {
    if key !in t.columns then Err(KeyError(key))
    else if key in Keys(aggs) then Err(KeyError(key))
    else match Missing(t.columns, Keys(aggs))
      case Some(c) => Err(KeyError(c))
      case None =>
        var ks := Column(t, key);
        if !AllHashable(ks) || !Orderable(ks) then Err(TypeError)
        else
          var keys := GroupKeys(ks);
          assert forall i :: 0 <= i < |keys| ==> |Group(t.rows, key, keys[i])| > 0 by {
            forall i | 0 <= i < |keys| ensures |Group(t.rows, key, keys[i])| > 0 {
              assert keys[i] in ks;
              assert ColumnOf(t.rows, key) == ks;
              GroupNonEmpty(t.rows, key, keys[i]);
            }
          }
          if !AggregatesOk(t.rows, key, keys, aggs) then Err(TypeError)
          else
            var rows := seq(|keys|, i requires 0 <= i < |keys| => GroupRow(t.rows, key, keys[i], aggs));
            assert ColumnOf(rows, key) == keys;
            Ok(Table([key] + Keys(aggs), rows))
  }

  /** Each output row holds one key and, under each aggregated column, the
      aggregation of that column over exactly the rows with that key. */
  lemma GroupBySpec(t: Table, key: string, aggs: Dict<string, Agg>)
    requires DistinctKeys(aggs) && GroupBy(t, key, aggs).Ok?
    ensures WellFormed(GroupBy(t, key, aggs).value)
    ensures forall i, j :: 0 <= i < |GroupBy(t, key, aggs).value.rows| && 0 <= j < |aggs| ==>
      |Group(t.rows, key, Cell(GroupBy(t, key, aggs).value.rows[i], key))| > 0 &&
      Aggregate(aggs[j].1, ColumnOf(Group(t.rows, key, Cell(GroupBy(t, key, aggs).value.rows[i], key)), aggs[j].0))
        == Ok(Cell(GroupBy(t, key, aggs).value.rows[i], aggs[j].0))
  {
    GroupByWellFormed(t, key, aggs);
    GroupByCells(t, key, aggs);
  }

  /** The groups of the distinct keys are never empty. */
  lemma KeyGroupsNonEmpty(t: Table, key: string)
    ensures forall i :: 0 <= i < |GroupKeys(Column(t, key))| ==> |Group(t.rows, key, GroupKeys(Column(t, key))[i])| > 0
  {
    var keys := GroupKeys(Column(t, key));
    forall i | 0 <= i < |keys| ensures |Group(t.rows, key, keys[i])| > 0 {
      assert keys[i] in Column(t, key);
      assert ColumnOf(t.rows, key) == Column(t, key);
      GroupNonEmpty(t.rows, key, keys[i]);
    }
  }

  lemma GroupByWellFormed(t: Table, key: string, aggs: Dict<string, Agg>)
    requires DistinctKeys(aggs) && GroupBy(t, key, aggs).Ok?
    ensures WellFormed(GroupBy(t, key, aggs).value)
  {
    var r := GroupBy(t, key, aggs).value;
    KeyGroupsNonEmpty(t, key);
    assert Distinct(r.columns) by {
      forall a, b | 0 <= a < b < |r.columns| ensures r.columns[a] != r.columns[b] {
        if a == 0 { assert r.columns[b] == Keys(aggs)[b - 1]; }
        else { assert r.columns[a] == aggs[a - 1].0 && r.columns[b] == aggs[b - 1].0; }
      }
    }
  }

  lemma GroupByCells(t: Table, key: string, aggs: Dict<string, Agg>)
    requires DistinctKeys(aggs) && GroupBy(t, key, aggs).Ok?
    ensures forall i, j :: 0 <= i < |GroupBy(t, key, aggs).value.rows| && 0 <= j < |aggs| ==>
      |Group(t.rows, key, Cell(GroupBy(t, key, aggs).value.rows[i], key))| > 0 &&
      Aggregate(aggs[j].1, ColumnOf(Group(t.rows, key, Cell(GroupBy(t, key, aggs).value.rows[i], key)), aggs[j].0))
        == Ok(Cell(GroupBy(t, key, aggs).value.rows[i], aggs[j].0))
  {
    var r := GroupBy(t, key, aggs).value;
    var keys := GroupKeys(Column(t, key));
    KeyGroupsNonEmpty(t, key);
    forall i, j | 0 <= i < |r.rows| && 0 <= j < |aggs|
      ensures |Group(t.rows, key, Cell(r.rows[i], key))| > 0 &&
        Aggregate(aggs[j].1, ColumnOf(Group(t.rows, key, Cell(r.rows[i], key)), aggs[j].0))
        == Ok(Cell(r.rows[i], aggs[j].0))
    {
      assert Cell(r.rows[i], key) == keys[i];
      var c := aggs[j].0;
      assert c in Keys(aggs) && c != key;
      var jj := IndexOfKey(aggs, c);
      assert jj == j;
    }
  }

  /** `df[c].value_counts().reset_index()`: one row per distinct value with
      the number of rows holding it, most frequent first. Ties keep first
      occurrence order. */
  function ValueCounts(t: Table, c: string): (r: Result<Table>)
    ensures c !in t.columns ==> r == Err(KeyError(c))
    ensures r.Ok? <==> c in t.columns && AllHashable(Column(t, c)) && c != "count"
    ensures r.Ok? ==> r.value.columns == [c, "count"]
    ensures r.Ok? ==> SortedBy(r.value.rows, (row: Row) => Cell(row, "count"), false)
    ensures r.Ok? ==> multiset(r.value.rows) == multiset(CountRows(Column(t, c), c))
  {
    if c !in t.columns then Err(KeyError(c))
    else if !AllHashable(Column(t, c)) then Err(TypeError)
    else if c == "count" then Err(ValueError("cannot insert count, already exists"))
    else
      var key := (row: Row) => Cell(row, "count");
      var rows := CountRows(Column(t, c), c);
      SortBySorted(rows, key, false);
      SortByPermutation(rows, key, false);
      Ok(Table([c, "count"], SortBy(rows, key, false)))
  }

  /** One `{c, count}` row per distinct value, in first-occurrence order. */
  function CountRows(vals: seq<Value>, c: string): (r: seq<Row>)
    ensures |r| == |Uniq(vals)|
    ensures forall i :: 0 <= i < |r| ==> r[i] == map[c := Uniq(vals)[i], "count" := VInt(Occurrences(vals, Uniq(vals)[i]))]
  {
    var u := Uniq(vals);
    seq(|u|, i requires 0 <= i < |u| => map[c := u[i], "count" := VInt(Occurrences(vals, u[i]))])
  }

  /** pandas' `sort_index()` after `value_counts()`: ascending by value. */
  function ValueCountsByValue(t: Table, c: string): (r: Result<Table>)
    ensures c !in t.columns ==> r == Err(KeyError(c))
    ensures r.Ok? <==> c in t.columns && AllHashable(Column(t, c)) && c != "count" && Orderable(Column(t, c))
    ensures r.Ok? ==> r.value.columns == [c, "count"]
    ensures r.Ok? ==> SortedBy(r.value.rows, (row: Row) => Cell(row, c), true)
    ensures r.Ok? ==> multiset(r.value.rows) == multiset(CountRows(Column(t, c), c))
  {
    if c !in t.columns then Err(KeyError(c))
    else if !AllHashable(Column(t, c)) then Err(TypeError)
    else if !Orderable(Column(t, c)) then Err(TypeError)
    else if c == "count" then Err(ValueError("cannot insert count, already exists"))
    else
      var key := (row: Row) => Cell(row, c);
      var rows := CountRows(Column(t, c), c);
      SortBySorted(rows, key, true);
      SortByPermutation(rows, key, true);
      Ok(Table([c, "count"], SortBy(rows, key, true)))
  }

  /** The counts of all distinct values add up to the number of rows. */
  lemma {:induction false} CountsCoverRows(vals: seq<Value>)
    ensures SumOccurrences(vals, Uniq(vals)) == |vals|
    decreases |vals|
  {
    if |vals| > 0 {
      var init := vals[..|vals| - 1];
      var x := vals[|vals| - 1];
      assert vals == init + [x];
      CountsCoverRows(init);
      var u := Uniq(init);
      SumOccurrencesSnoc(init, x, u);
      if x !in u {
        SumOccurrencesAppend(vals, u, x);
        assert Occurrences(vals, x) == 1 by {
          assert x !in init;
          assert multiset(init)[x] == 0;
        }
      }
    }
  }

  function SumOccurrences(vals: seq<Value>, us: seq<Value>): nat
    decreases |us|
  {
    if |us| == 0 then 0 else SumOccurrences(vals, us[..|us| - 1]) + Occurrences(vals, us[|us| - 1])
  }

  lemma {:induction false} SumOccurrencesAppend(vals: seq<Value>, us: seq<Value>, x: Value)
    ensures SumOccurrences(vals, us + [x]) == SumOccurrences(vals, us) + Occurrences(vals, x)
  {
    assert (us + [x])[..|us|] == us;
  }

  /** Appending a value to the column adds one to the total over distinct
      values that include it. */
  lemma {:induction false} SumOccurrencesSnoc(vals: seq<Value>, x: Value, us: seq<Value>)
    requires Distinct(us)
    ensures SumOccurrences(vals + [x], us) == SumOccurrences(vals, us) + (if x in us then 1 else 0)
    decreases |us|
  {
    if |us| > 0 {
      var init := us[..|us| - 1];
      assert Distinct(init);
      SumOccurrencesSnoc(vals, x, init);
      assert multiset(vals + [x]) == multiset(vals) + multiset{x};
      assert x in us <==> x in init || x == us[|us| - 1];
      if x == us[|us| - 1] {
        assert x !in init by {
          forall m | 0 <= m < |init| ensures init[m] != x { assert init[m] == us[m]; }
        }
      }
    }
  }

  // -----------------------------------------------------------------------
  // cumsum

  /** `Series.cumsum()` on a numeric column: position k holds the total of
      the first k + 1 cells, integral when every cell is. */
  function RunningTotals(vals: seq<Value>): (r: seq<Value>)
    requires AllNumeric(vals)
    ensures |r| == |vals|
    ensures forall k :: 0 <= k < |r| ==> r[k] == NumberSum(vals[..k + 1])
    decreases |vals|
  {
    if |vals| == 0 then []
    else
      var init := vals[..|vals| - 1];
      var r := RunningTotals(init);
      forall k | 0 <= k < |init| ensures r[k] == NumberSum(vals[..k + 1]) {
        assert init[..k + 1] == vals[..k + 1];
      }
      assert vals[..|vals|] == vals;
      r + [NumberSum(vals)]
  }

  /** `range(1, n + 1)`. */
  function Positions(n: nat): (r: seq<Value>)
    ensures |r| == n && forall k :: 0 <= k < n ==> r[k] == VInt(k + 1)
  {
    seq(n, k requires 0 <= k < n => VInt(k + 1))
  }

  /** Each running total is the previous one plus the current cell. */
  lemma RunningTotalsStep(vals: seq<Value>, k: nat)
    requires AllNumeric(vals) && 0 < k < |vals|
    ensures Num(RunningTotals(vals)[k]) == Num(RunningTotals(vals)[k - 1]) + Num(vals[k])
  {
    var p := vals[..k + 1];
    assert p[..|p| - 1] == vals[..k];
    assert Total(p) == Total(vals[..k]) + Num(vals[k]);
  }
}
