/** A pandas DataFrame as the modelled code uses it: an ordered list of
    distinct column names and a sequence of rows, each row a map from column
    name to cell. The row index is not modelled: every operation that
    pandas would align by index keeps rows in positional order. */
module Tables {
  import opened Wrappers
  import opened Values
  import opened Sorting

  type Row = map<string, Value>

  datatype Table = Table(columns: seq<string>, rows: seq<Row>)

  function ColumnSet(cols: seq<string>): set<string> {
    set c | c in cols
  }

  predicate WellFormed(t: Table) {
    Distinct(t.columns) && forall k :: 0 <= k < |t.rows| ==> t.rows[k].Keys == ColumnSet(t.columns)
  }

  function Cell(r: Row, c: string): Value {
    if c in r then r[c] else VNone
  }

  /** The cells of column `c`, top to bottom. */
  function Column(t: Table, c: string): (r: seq<Value>)
    ensures |r| == |t.rows|
    ensures forall k :: 0 <= k < |t.rows| ==> r[k] == Cell(t.rows[k], c)
  {
    seq(|t.rows|, k requires 0 <= k < |t.rows| => Cell(t.rows[k], c))
  }

  function ColumnOf(rows: seq<Row>, c: string): (r: seq<Value>)
    ensures |r| == |rows|
    ensures forall k :: 0 <= k < |rows| ==> r[k] == Cell(rows[k], c)
  {
    seq(|rows|, k requires 0 <= k < |rows| => Cell(rows[k], c))
  }

  /** `df[c]` on a single name. */
  function GetColumn(t: Table, c: string): (r: Result<seq<Value>>)
    ensures r.Err? <==> c !in t.columns
    ensures r.Err? ==> r.error == KeyError(c)
    ensures r.Ok? ==> r.value == Column(t, c)
  {
    if c in t.columns then Ok(Column(t, c)) else Err(KeyError(c))
  }

  /** `df[c] = vals`: overwrite the column in place, or append it. */
  function SetColumn(t: Table, c: string, vals: seq<Value>): (r: Table)
    requires |vals| == |t.rows|
    ensures |r.rows| == |t.rows|
    ensures r.columns == if c in t.columns then t.columns else t.columns + [c]
  {
    Table(if c in t.columns then t.columns else t.columns + [c],
          seq(|t.rows|, k requires 0 <= k < |t.rows| => t.rows[k][c := vals[k]]))
  }

  /** Assigning a column stores exactly `vals` there and changes nothing else. */
  lemma SetColumnSpec(t: Table, c: string, vals: seq<Value>)
    requires |vals| == |t.rows|
    ensures WellFormed(t) ==> WellFormed(SetColumn(t, c, vals))
    ensures Column(SetColumn(t, c, vals), c) == vals
    ensures forall d :: d != c ==> Column(SetColumn(t, c, vals), d) == Column(t, d)
  {
    var r := SetColumn(t, c, vals);
    if WellFormed(t) {
      assert ColumnSet(r.columns) == ColumnSet(t.columns) + {c};
      if c !in t.columns {
        forall i, j | 0 <= i < j < |r.columns| ensures r.columns[i] != r.columns[j] {
          if j == |t.columns| { assert r.columns[j] == c; assert r.columns[i] == t.columns[i]; }
        }
      }
    }
    assert Column(r, c) == vals;
    forall d | d != c ensures Column(r, d) == Column(t, d) {
      assert forall k :: 0 <= k < |t.rows| ==> Cell(r.rows[k], d) == Cell(t.rows[k], d);
    }
  }

  /** `df.insert(loc, c, vals)`: pandas refuses a name that is already a column. */
  function InsertColumn(t: Table, loc: nat, c: string, vals: seq<Value>): (r: Result<Table>)
    requires loc <= |t.columns| && |vals| == |t.rows|
    ensures r.Err? <==> c in t.columns
    ensures r.Ok? ==> r.value.columns == t.columns[..loc] + [c] + t.columns[loc..]
    ensures r.Ok? ==> r.value.rows == SetColumn(t, c, vals).rows
  {
    if c in t.columns then Err(ValueError("cannot insert " + c + ", already exists"))
    else Ok(Table(t.columns[..loc] + [c] + t.columns[loc..], SetColumn(t, c, vals).rows))
  }

  lemma InsertColumnSpec(t: Table, loc: nat, c: string, vals: seq<Value>)
    requires loc <= |t.columns| && |vals| == |t.rows|
    requires WellFormed(t) && c !in t.columns
    ensures WellFormed(InsertColumn(t, loc, c, vals).value)
    ensures Column(InsertColumn(t, loc, c, vals).value, c) == vals
    ensures forall d :: d != c ==> Column(InsertColumn(t, loc, c, vals).value, d) == Column(t, d)
  {
    SetColumnSpec(t, c, vals);
    var r := InsertColumn(t, loc, c, vals).value;
    var cs := r.columns;
    assert ColumnSet(cs) == ColumnSet(t.columns) + {c} by {
      assert forall x :: x in cs <==> x in t.columns[..loc] || x == c || x in t.columns[loc..];
      assert t.columns == t.columns[..loc] + t.columns[loc..];
    }
    forall i, j | 0 <= i < j < |cs| ensures cs[i] != cs[j] {
      var ti := if i < loc then i else i - 1;
      var tj := if j < loc then j else j - 1;
      if i != loc && j != loc {
        assert cs[i] == t.columns[ti] && cs[j] == t.columns[tj];
      } else if i == loc {
        assert cs[j] == t.columns[tj];
      } else {
        assert cs[i] == t.columns[ti];
      }
    }
    assert Column(r, c) == Column(SetColumn(t, c, vals), c);
    forall d | d != c ensures Column(r, d) == Column(t, d) {
      assert Column(r, d) == Column(SetColumn(t, c, vals), d);
    }
  }

  /** The first of `names` that is not a column, if any. */
  function Missing(cols: seq<string>, names: seq<string>): (r: Option<string>)
    ensures r.None? <==> forall k :: 0 <= k < |names| ==> names[k] in cols
    ensures r.Some? ==> r.value in names && r.value !in cols
    decreases |names|
  {
    if |names| == 0 then None
    else if names[0] !in cols then Some(names[0])
    else
      var r := Missing(cols, names[1..]);
      assert forall k :: 1 <= k < |names| ==> names[k] == names[1..][k - 1];
      r
  }

  /** `df[cols]`. A missing name is a KeyError. A repeated name would give
      pandas a frame with duplicate columns, which rows-as-maps cannot hold. */
  function Project(t: Table, cols: seq<string>): (r: Result<Table>)
    ensures r.Err? <==> Missing(t.columns, cols).Some? || !Distinct(cols)
    ensures Missing(t.columns, cols).Some? ==> r == Err(KeyError(Missing(t.columns, cols).value))
    ensures r.Ok? ==> r.value.columns == cols && |r.value.rows| == |t.rows|
    ensures r.Ok? ==> forall c :: c in cols ==> Column(r.value, c) == Column(t, c)
    ensures r.Ok? && WellFormed(t) ==> WellFormed(r.value)
  {
    match Missing(t.columns, cols)
    case Some(c) => Err(KeyError(c))
    case None =>
      if !Distinct(cols) then Err(Unmodelled("duplicate column names"))
      else
        var rows := seq(|t.rows|, k requires 0 <= k < |t.rows| =>
          map c | c in ColumnSet(cols) :: Cell(t.rows[k], c));
        var r := Table(cols, rows);
        assert forall c :: c in cols ==> Column(r, c) == Column(t, c);
        Ok(r)
  }

  /** Boolean-mask indexing `df[mask]`: the rows satisfying `p`, in order. */
  function Where(rows: seq<Row>, p: Row -> bool): (r: seq<Row>)
    ensures |r| <= |rows|
    ensures forall k :: 0 <= k < |r| ==> p(r[k]) && r[k] in rows
    decreases |rows|
  {
    if |rows| == 0 then []
    else
      var rest := Where(rows[1..], p);
      assert forall x :: x in rows[1..] ==> x in rows;
      if p(rows[0]) then [rows[0]] + rest else rest
  }

  /** Every row that satisfies the predicate is kept. */
  lemma {:induction false} WhereKeeps(rows: seq<Row>, p: Row -> bool, x: Row)
    requires x in rows && p(x)
    ensures x in Where(rows, p)
    decreases |rows|
  {
    if rows[0] != x {
      assert x in rows[1..];
      WhereKeeps(rows[1..], p, x);
    }
  }

  /** Applying two masks in turn keeps the rows that satisfy both. */
  lemma {:induction false} WhereCompose(rows: seq<Row>, p: Row -> bool, q: Row -> bool)
    ensures Where(Where(rows, p), q) == Where(rows, (r: Row) => p(r) && q(r))
    decreases |rows|
  {
    if |rows| > 0 {
      WhereCompose(rows[1..], p, q);
      if p(rows[0]) {
        assert ([rows[0]] + Where(rows[1..], p))[1..] == Where(rows[1..], p);
      }
    }
  }

  /** Masks that agree on every row keep the same rows. */
  lemma {:induction false} WhereExt(rows: seq<Row>, p: Row -> bool, q: Row -> bool)
    requires forall k :: 0 <= k < |rows| ==> p(rows[k]) == q(rows[k])
    ensures Where(rows, p) == Where(rows, q)
    decreases |rows|
  {
    if |rows| > 0 {
      assert forall k :: 0 <= k < |rows[1..]| ==> rows[1..][k] == rows[k + 1];
      WhereExt(rows[1..], p, q);
    }
  }

  /** Filtering does not reorder: each kept row appears once more than in the
      filtered tail exactly when it satisfies the mask. */
  lemma {:induction false} WhereCount(rows: seq<Row>, p: Row -> bool, x: Row)
    ensures multiset(Where(rows, p))[x] == if p(x) then multiset(rows)[x] else 0
    decreases |rows|
  {
    if |rows| > 0 {
      WhereCount(rows[1..], p, x);
      assert rows == [rows[0]] + rows[1..];
    }
  }

  function FilterTable(t: Table, p: Row -> bool): (r: Table)
    ensures r.columns == t.columns
    ensures WellFormed(t) ==> WellFormed(r)
  {
    Table(t.columns, Where(t.rows, p))
  }

  /** Python can order every pair of values (`sort_values` would raise otherwise). */
  predicate Orderable(vals: seq<Value>) {
    forall i, j :: 0 <= i < j < |vals| ==> Comparable(vals[i], vals[j])
  }

  /** `df.sort_values(by=c, ascending=asc)`. */
  function SortTable(t: Table, c: string, asc: bool): (r: Result<Table>)
    ensures r.Err? <==> c !in t.columns || !Orderable(Column(t, c))
    ensures c !in t.columns ==> r == Err(KeyError(c))
    ensures r.Ok? ==> r.value.columns == t.columns
    ensures r.Ok? ==> SortedBy(r.value.rows, (row: Row) => Cell(row, c), asc)
    ensures r.Ok? ==> multiset(r.value.rows) == multiset(t.rows)
  {
    if c !in t.columns then Err(KeyError(c))
    else if !Orderable(Column(t, c)) then Err(TypeError)
    else
      var key := (row: Row) => Cell(row, c);
      SortBySorted(t.rows, key, asc);
      SortByPermutation(t.rows, key, asc);
      Ok(Table(t.columns, SortBy(t.rows, key, asc)))
  }

  lemma SortTableWellFormed(t: Table, c: string, asc: bool)
    requires WellFormed(t) && SortTable(t, c, asc).Ok?
    ensures WellFormed(SortTable(t, c, asc).value)
  {
    var r := SortTable(t, c, asc).value;
    forall k | 0 <= k < |r.rows| ensures r.rows[k].Keys == ColumnSet(t.columns) {
      assert r.rows[k] in multiset(t.rows);
      var m :| 0 <= m < |t.rows| && t.rows[m] == r.rows[k];
    }
  }

  // ---------------------------------------------------------------------
  // Per-cell series operations

  /** Apply a per-cell conversion to a whole column; the first failing cell's
      error is the column's. */
  function MapCells(vals: seq<Value>, conv: Value -> Result<Value>): (r: Result<seq<Value>>)
    ensures r.Ok? <==> forall k :: 0 <= k < |vals| ==> conv(vals[k]).Ok?
    ensures r.Ok? ==> |r.value| == |vals| && forall k :: 0 <= k < |vals| ==> r.value[k] == conv(vals[k]).value
    decreases |vals|
  {
    if |vals| == 0 then Ok([])
    else
      match conv(vals[0])
      case Err(e) => Err(e)
      case Ok(v) =>
        match MapCells(vals[1..], conv)
        case Err(e) =>
          assert exists k :: 1 <= k < |vals| && conv(vals[k]).Err? by {
            var j :| 0 <= j < |vals[1..]| && conv(vals[1..][j]).Err?;
            assert conv(vals[j + 1]).Err?;
          }
          Err(e)
        case Ok(rest) =>
          assert forall k :: 1 <= k < |vals| ==> vals[k] == vals[1..][k - 1];
          Ok([v] + rest)
  }

  /** The `.dt` accessor works on timestamps only. */
  function HourOf(cell: Value): Result<Value> {
    if cell.VTime? then Ok(VInt(cell.t.hour)) else Err(AttributeError("dt"))
  }

  function DayOf(cell: Value): Result<Value> {
    if cell.VTime? then Ok(VInt(cell.t.date.day)) else Err(AttributeError("dt"))
  }

  function CalendarDateOf(cell: Value): Result<Value> {
    if cell.VTime? then Ok(VDate(cell.t.date)) else Err(AttributeError("dt"))
  }
}
